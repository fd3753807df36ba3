/** The saga counters as an exact audit of the sessions, at every moment of every run. */
module Audit {
  import opened Models
  import opened Retries
  import opened Cart
  import opened Metrics
  import opened Program
  import opened Slices
  import opened World
  import opened Reach
  import opened Lifecycle

  /** The sessions each counter stands for. */
  datatype Kind = WithHold | Successful | ReconciledOnes | CompensatedOnes | AbandonedOnes | EverPinned

  predicate Is(kind: Kind, x: Session, pinned: bool) {
    match kind
    case WithHold => x.hold.Some?
    case Successful => x.state in {Confirmed, Reconciled}
    case ReconciledOnes => x.state == Reconciled
    case CompensatedOnes => x.state == Compensated
    case AbandonedOnes => x.state == Abandoned
    case EverPinned => pinned
  }

  function Reading(c: Counters, kind: Kind): int {
    match kind
    case WithHold => c.holdsPlaced
    case Successful => c.confirmsSuccess
    case ReconciledOnes => c.confirmsReconciled
    case CompensatedOnes => c.compensations
    case AbandonedOnes => c.abandons
    case EverPinned => c.statusUnknown
  }

  ghost function Members(cells: map<Sid, Cell>, kind: Kind): set<Sid> {
    set s | s in cells && Is(kind, cells[s].session, cells[s].pinned)
  }

  ghost predicate Audited(w: World) {
    forall kind :: Reading(w.counters, kind) == |Members(w.cells, kind)|
  }

  // ----- One effect ---------------------------------------------------------------------------------

  /** An effect moves a counter by one exactly when its session enters the counted kind, and no
      session leaves one. */
  predicate Counted(x: Session, pinned: bool, e: Effect) {
    var y := SavedOr(x, e);
    var pinned' := pinned || e.event == Some(StatusUnknown);
    forall kind :: Entered(kind, x, pinned, y, pinned', e.event)
  }

  predicate Entered(kind: Kind, x: Session, pinned: bool, y: Session, pinned': bool, event: Option<Event>) {
    && (Is(kind, x, pinned) ==> Is(kind, y, pinned'))
    && Reading(Tally(ZERO, event), kind) == if !Is(kind, x, pinned) && Is(kind, y, pinned') then 1 else 0
  }

  lemma EnterCounted(s: Slice, pc: Pc, now: int)
    requires SliceOk(s) && s.at.None? && WantsLock(pc)
    ensures var k := CacheKey(pc);
            var cached := if k.Some? && k.value in s.recs then Some(s.recs[k.value]) else None;
            Counted(s.session, s.pinned, Enter(pc, Some(s.session), cached, now))
  {
    if pc.AtConfirmLock? && pc.key in s.recs {
      hide Repaired;
      RepairIsIdle(s, pc.key, {Held, FulfillPending});
    }
  }

  lemma ResumeCounted(s: Slice, reply: Reply)
    requires SliceOk(s) && s.at.Some? && HoldsLock(s.at.value)
    requires s.at.value.AtFulfill? || s.at.value.AtRelease? ==> s.session.hold.Some?
    requires Answers(CallOf(s.at.value, s.session), reply)
    ensures Counted(s.session, s.pinned, Resume(s.at.value, s.session, reply))
  {
    hide GoodLines, HoldTracked, Cached, Counted, AfterLookup, AfterPost, AfterFulfill, AfterRelease;
    var pc := s.at.value;
    GoCounted(s.session, s.pinned);
    match pc
    case AtStock(_, _, _) =>
    case AtCreateHold(lines, customer, next) => CreateHoldCounted(s, reply);
    case AtLookup(why, attempt, max) =>
      if FindNext(attempt, max, reply).Ended? { AfterLookupCounted(s, FindNext(attempt, max, reply).result); }
    case AtPost(_, key) => AfterPostCounted(s, reply);
    case AtFulfill(why, attempt) =>
      if FulfillNext(attempt, MAX_RETRIES, reply).Ended? {
        AfterFulfillCounted(s, FulfillNext(attempt, MAX_RETRIES, reply).result);
      }
    case AtRelease(why, attempt) =>
      if ReleaseNext(attempt, MAX_RETRIES, reply).Ended? {
        AfterReleaseCounted(s, ReleaseNext(attempt, MAX_RETRIES, reply).result);
      }
  }

  lemma GoCounted(x: Session, pinned: bool)
    ensures forall pc :: Counted(x, pinned, Go(pc))
  {
  }

  lemma CreateHoldCounted(s: Slice, reply: Reply)
    requires SliceOk(s) && s.at.Some? && s.at.value.AtCreateHold? && (reply.Failed? || reply.HoldMade?)
    ensures Counted(s.session, s.pinned, AfterCreateHold(s.at.value.lines, s.at.value.customer, s.at.value.next,
              s.session, reply))
  {
    hide GoodLines, HoldTracked, Cached;
  }

  lemma AfterLookupCounted(s: Slice, result: Lookup)
    requires SliceOk(s) && s.at.Some? && s.at.value.AtLookup?
    ensures Counted(s.session, s.pinned, AfterLookup(s.at.value.lookup, s.session, result))
  {
    hide GoodLines, HoldTracked, Cached;
  }

  lemma AfterPostCounted(s: Slice, reply: Reply)
    requires SliceOk(s) && s.at.Some? && s.at.value.AtPost? && (reply.Failed? || reply.Placed?)
    ensures Counted(s.session, s.pinned, AfterPost(s.session, s.at.value.key, reply))
  {
    hide GoodLines, HoldTracked, Cached;
  }

  lemma ConfirmReading(reconciled: bool, kind: Kind)
    ensures Reading(Tally(ZERO, Some(ConfirmSucceeded(reconciled))), kind) ==
              if kind == Successful || (kind == ReconciledOnes && reconciled) then 1 else 0
  {
    match kind
    case WithHold =>
    case Successful =>
    case ReconciledOnes =>
    case CompensatedOnes =>
    case AbandonedOnes =>
    case EverPinned =>
  }

  lemma FinalizeCounted(x: Session, pinned: bool, order: OrderId, key: Key, reconciled: bool, fromCache: bool)
    requires x.state in {Held, FulfillPending}
    ensures Counted(x, pinned, Finalize(x, order, key, if reconciled then Reconciled
              else Confirmed, ConfirmSucceeded(reconciled), fromCache))
  {
    var e := Finalize(x, order, key, if reconciled then Reconciled
      else Confirmed, ConfirmSucceeded(reconciled), fromCache);
    var y := x.(state := if reconciled then Reconciled else Confirmed, order := Some(order), key := Some(key));
    assert SavedOr(x, e) == y && e.event == Some(ConfirmSucceeded(reconciled));
    forall kind ensures Entered(kind, x, pinned, y, pinned, e.event) {
      FinalEntered(x, pinned, y, reconciled, kind);
    }
  }

  lemma FinalEntered(x: Session, pinned: bool, y: Session, reconciled: bool, kind: Kind)
    requires x.state in {Held, FulfillPending} && y.state == (if reconciled then Reconciled else Confirmed)
               && y.hold == x.hold
    ensures Entered(kind, x, pinned, y, pinned, Some(ConfirmSucceeded(reconciled)))
  {
    hide Tally, Reading;
    ConfirmReading(reconciled, kind);
  }

  lemma PendingCounted(x: Session, pinned: bool, y: Session, pc: Pc, put: Option<(Key, Record)>)
    requires x.state == Held && y == x.(state := FulfillPending, order := y.order, key := y.key)
    ensures Counted(x, pinned, Effect(pc, Some(y), put, None))
  {
  }

  lemma AfterFulfillCounted(s: Slice, fulfilled: bool)
    requires SliceOk(s) && s.at.Some? && s.at.value.AtFulfill?
    ensures Counted(s.session, s.pinned, AfterFulfill(s.at.value.fulfill, s.session, fulfilled))
  {
    hide GoodLines, HoldTracked, Cached, Counted, Finalize;
    GoCounted(s.session, s.pinned);
    match s.at.value.fulfill
    case NewOrder(order, key, reconciled) =>
      if fulfilled {
        FinalizeCounted(s.session, s.pinned, order.id, key, reconciled, false);
      } else {
        var e := AfterFulfill(s.at.value.fulfill, s.session, fulfilled);
        PendingCounted(s.session, s.pinned, e.saved.value, e.pc, e.put);
      }
    case Pending(key, fromCache) =>
      if fulfilled && s.session.order.Some? {
        FinalizeCounted(s.session, s.pinned, s.session.order.value, key, false, fromCache);
      }
    case CachedReplay =>
  }

  lemma AfterReleaseCounted(s: Slice, result: Release)
    requires SliceOk(s) && s.at.Some? && s.at.value.AtRelease?
    ensures Counted(s.session, s.pinned, AfterRelease(s.at.value.release, s.session, result))
  {
    hide GoodLines, HoldTracked, Cached;
  }

  lemma TallyShift(c: Counters, event: Option<Event>, kind: Kind)
    ensures Reading(Tally(c, event), kind) == Reading(c, kind) + Reading(Tally(ZERO, event), kind)
  {
  }

  lemma MembersUpdate(cells: map<Sid, Cell>, s: Sid, c: Cell, kind: Kind)
    requires s in cells && (Is(kind, cells[s].session, cells[s].pinned) ==> Is(kind, c.session, c.pinned))
    ensures |Members(cells[s := c], kind)| == |Members(cells, kind)| +
              (if !Is(kind, cells[s].session, cells[s].pinned) && Is(kind, c.session, c.pinned) then 1 else 0)
  {
    hide Is;
    var before, after := Members(cells, kind), Members(cells[s := c], kind);
    forall i ensures i in after <==> (if i == s then Is(kind, c.session, c.pinned) else i in before) {
    }
    hide Members;
    if !Is(kind, cells[s].session, cells[s].pinned) && Is(kind, c.session, c.pinned) {
      assert after == before + {s};
    } else {
      assert after == before;
    }
  }

  lemma CommitAudited(w: World, w': World, s: Sid, e: Effect)
    requires Audited(w) && s in w.cells && s in w'.cells && w'.cells == w.cells[s := w'.cells[s]]
    requires w'.counters == Tally(w.counters, e.event)
    requires w'.cells[s].session == SavedOr(w.cells[s].session, e)
    requires w'.cells[s].pinned == (w.cells[s].pinned || e.event == Some(StatusUnknown))
    requires Counted(w.cells[s].session, w.cells[s].pinned, e)
    ensures Audited(w')
  {
    hide Is, Tally, Reading, Members;
    forall kind ensures Reading(w'.counters, kind) == |Members(w'.cells, kind)| {
      assert Entered(kind, w.cells[s].session, w.cells[s].pinned, w'.cells[s].session, w'.cells[s].pinned, e.event);
      TallyShift(w.counters, e.event, kind);
      MembersUpdate(w.cells, s, w'.cells[s], kind);
    }
  }

  // ----- Every step ----------------------------------------------------------------------------------------

  lemma StepAudited(w: World, step: Step)
    requires Inv(w) && Audited(w) && Enabled(w, step)
    ensures Audited(Take(w, step))
  {
    hide Inv, SliceOk, Audited, Enter, Resume, Start, Serve, Tally, Counted, RespondStep, NewSessionStep;
    match step
    case NewSession(sid, ref) => NewSessionAudited(w, sid, ref);
    case StartOp(tid, sid, op, catalog) =>
      StartKeeps(w, tid, sid, op, catalog);
      SameAudited(w, StartStep(w, tid, sid, op, catalog));
    case GetLock(tid) =>
      if w.tasks[tid].sid in w.cells {
        LockSliceOk(w, tid);
        EnterCounted(SliceOf(w, w.tasks[tid].sid), w.tasks[tid].pc, w.clock);
        CommitAudited(w, LockStep(w, tid), w.tasks[tid].sid, LockEffect(w, tid));
      } else {
        SameAudited(w, LockStep(w, tid));
      }
    case Respond(tid, fault, newId) =>
      RespondAudited(w, tid, fault, newId);
    case Tick(elapsed) => SameAudited(w, w.(clock := w.clock + elapsed));
  }

  lemma SameAudited(w: World, w': World)
    requires Audited(w) && w'.cells == w.cells && w'.counters == w.counters
    ensures Audited(w')
  {
  }

  lemma NewSessionAudited(w: World, sid: Sid, ref: Ref)
    requires Audited(w) && sid !in w.cells
    ensures Audited(NewSessionStep(w, sid, ref))
  {
    forall kind ensures Members(NewSessionStep(w, sid, ref).cells, kind) == Members(w.cells, kind) {
    }
  }

  lemma RespondAudited(w: World, tid: Tid, fault: Fault, newId: nat)
    requires Inv(w) && Audited(w) && CanRespond(w, tid, fault, newId)
    ensures Audited(RespondStep(w, tid, fault, newId))
  {
    hide Inv, SliceOk, Audited, Resume, Serve, Tally, Counted, RespondStep;
    var w' := RespondStep(w, tid, fault, newId);
    if !HoldsLock(w.tasks[tid].pc) {
      LocklessCells(w, tid, fault, newId);
      GateCountsNothing(w, tid, fault, newId);
      SameAudited(w, w');
    } else {
      ReplyFields(w, tid, fault, newId);
      ReplyPinned(w, tid, fault, newId);
      ReplyIdentity(w, tid, fault, newId);
      ReplyAnswers(w, tid, fault, newId);
      var s := w.tasks[tid].sid;
      SlicePinned(w, s);
      ResumeCounted(SliceOf(w, s), ServedTo(w, tid, fault, newId).reply);
      CommitAudited(w, w', s, ReplyEffect(w, tid, fault, newId));
    }
  }

  lemma SlicePinned(w: World, s: Sid)
    requires s in w.cells
    ensures SliceOf(w, s).pinned == w.cells[s].pinned && SliceOf(w, s).session == w.cells[s].session
  {
  }

  lemma ReplyPinned(w: World, tid: Tid, fault: Fault, newId: nat)
    requires RespondsLocked(w, tid, fault, newId)
    ensures var s := w.tasks[tid].sid;
            s in w.cells && s in RespondStep(w, tid, fault, newId).cells &&
            RespondStep(w, tid, fault, newId).cells[s].pinned ==
              (w.cells[s].pinned || ReplyEffect(w, tid, fault, newId).event == Some(StatusUnknown))
  {
    hide Serve, Resume, Tally, ReleaseFailed, Noted, Inv;
  }

  lemma GateCountsNothing(w: World, tid: Tid, fault: Fault, newId: nat)
    requires CanRespond(w, tid, fault, newId) && !HoldsLock(w.tasks[tid].pc)
    ensures RespondStep(w, tid, fault, newId).counters == w.counters
  {
    hide Serve;
  }

  lemma {:induction false} RunAudited(ws: seq<World>, i: nat)
    requires IsRun(ws) && i < |ws|
    ensures Audited(ws[i])
  {
    hide Audited, Inv, Next;
    if i == 0 {
      InitAudited(ws[0]);
    } else {
      RunAudited(ws, i - 1);
      RunKeeps(ws, i - 1);
      assert Next(ws[i - 1], ws[i]);
      NextAudited(ws[i - 1], ws[i]);
    }
  }

  lemma InitAudited(w: World)
    requires Init(w)
    ensures Audited(w)
  {
    forall kind ensures Members(w.cells, kind) == {} {
    }
  }

  lemma NextAudited(w: World, w': World)
    requires Inv(w) && Audited(w) && Next(w, w')
    ensures Audited(w')
  {
    hide Inv, Audited, Enabled, Take;
    var step :| Enabled(w, step) && w' == Take(w, step);
    StepAudited(w, step);
  }

  // ----- The audit -----------------------------------------------------------------------------------------

  ghost function InState(w: World, state: SessionState): set<Sid> {
    set s | s in w.cells && w.cells[s].session.state == state
  }

  /** By moment `i` of a run, session `s` has been held with its key pinned. */
  ghost predicate OncePinned(ws: seq<World>, i: nat, s: Sid)
    requires i < |ws|
  {
    exists k: nat :: k <= i && PinnedAt(ws[k], s)
  }

  ghost predicate PinnedAt(w: World, s: Sid) {
    s in w.cells && w.cells[s].session.state == Held && w.cells[s].session.key.Some?
  }

  lemma ResumePins(s: Slice, reply: Reply)
    requires SliceOk(s) && s.at.Some? && HoldsLock(s.at.value)
    requires s.at.value.AtFulfill? || s.at.value.AtRelease? ==> s.session.hold.Some?
    requires Answers(CallOf(s.at.value, s.session), reply)
    ensures var e := Resume(s.at.value, s.session, reply);
            e.event == Some(StatusUnknown) ==> SavedOr(s.session, e).state == Held && SavedOr(s.session, e).key.Some?
  {
    hide GoodLines, HoldTracked, Cached;
  }

  lemma EnterPinsNothing(pc: Pc, session: Option<Session>, cached: Option<Record>, now: int)
    requires WantsLock(pc)
    ensures Enter(pc, session, cached, now).event != Some(StatusUnknown)
  {
  }

  /** The flag is set exactly when the session is held with its key just pinned, and never cleared. */
  lemma StepPins(w: World, step: Step, s: Sid)
    requires Inv(w) && Enabled(w, step) && s in Take(w, step).cells
    ensures s in w.cells && w.cells[s].pinned ==> Take(w, step).cells[s].pinned
    ensures Take(w, step).cells[s].pinned ==> (s in w.cells && w.cells[s].pinned) || PinnedAt(Take(w, step), s)
  {
    hide Inv, SliceOk, Enter, Resume, Start, Serve, Tally, RespondStep;
    match step
    case StartOp(tid, sid, op, catalog) => StartKeeps(w, tid, sid, op, catalog);
    case GetLock(tid) =>
      var t := w.tasks[tid];
      EnterPinsNothing(t.pc, SessionOf(w, t.sid), RecordAt(w, t.sid, CacheKey(t.pc)), w.clock);
    case Respond(tid, fault, newId) =>
      if !HoldsLock(w.tasks[tid].pc) {
        LocklessCells(w, tid, fault, newId);
      } else {
        ReplyFields(w, tid, fault, newId);
        ReplyPinned(w, tid, fault, newId);
        ReplyIdentity(w, tid, fault, newId);
        ReplyAnswers(w, tid, fault, newId);
        ResumePins(SliceOf(w, w.tasks[tid].sid), ServedTo(w, tid, fault, newId).reply);
      }
    case _ =>
  }

  lemma PinnedIsMarked(w: World, s: Sid)
    requires Inv(w) && PinnedAt(w, s)
    ensures w.cells[s].pinned
  {
    assert SliceOk(SliceOf(w, s));
  }

  lemma {:induction false} MarkedIsPinned(ws: seq<World>, i: nat, s: Sid)
    requires IsRun(ws) && i < |ws|
    ensures s in ws[i].cells && ws[i].cells[s].pinned <==> OncePinned(ws, i, s)
  {
    hide Init, Inv, Enabled, Take, PinnedAt;
    RunKeeps(ws, i);
    if PinnedAt(ws[i], s) {
      PinnedIsMarked(ws[i], s);
      InCells(ws[i], s);
    } else if i == 0 {
      assert s !in ws[0].cells by { NoCells(ws[0]); }
    } else {
      MarkedIsPinned(ws, i - 1, s);
      RunKeeps(ws, i - 1);
      assert Next(ws[i - 1], ws[i]);
      var step :| Enabled(ws[i - 1], step) && ws[i] == Take(ws[i - 1], step);
      if s in ws[i].cells {
        StepPins(ws[i - 1], step, s);
      }
      if s in ws[i - 1].cells {
        SessionsStay(ws, s, i - 1, i);
      }
      assert OncePinned(ws, i, s) <==> OncePinned(ws, i - 1, s) by {
        if OncePinned(ws, i, s) {
          var k: nat :| k <= i && PinnedAt(ws[k], s);
          assert k <= i - 1;
        }
      }
    }
  }

  lemma InCells(w: World, s: Sid)
    requires PinnedAt(w, s)
    ensures s in w.cells
  {
  }

  lemma NoCells(w: World)
    requires Init(w)
    ensures w.cells == map[]
  {
  }

  /** Every counter equals the number of sessions it stands for, and the placed holds balance: each is
      held, pending, confirmed, compensated, or was abandoned. */
  lemma CountersAudit(ws: seq<World>, w: World)
    requires IsRun(ws) && w == ws[|ws| - 1]
    ensures w.counters.holdsPlaced == |set s | s in w.cells && w.cells[s].session.hold.Some?|
    ensures w.counters.confirmsSuccess == |set s | s in w.cells && w.cells[s].session.state in {Confirmed, Reconciled}|
    ensures w.counters.confirmsReconciled == |InState(w, Reconciled)|
    ensures w.counters.compensations == |InState(w, Compensated)|
    ensures w.counters.abandons == |InState(w, Abandoned)|
    ensures w.counters.statusUnknown == |set s | s in w.cells && OncePinned(ws, |ws| - 1, s)|
    ensures w.counters.holdsPlaced ==
              |InState(w, Held)| + |InState(w, FulfillPending)| + w.counters.confirmsSuccess + w.counters.compensations
              + |AbandonedHolds(w)|
  {
    hide Inv, OncePinned, Init, Next;
    RunAudited(ws, |ws| - 1);
    RunKeeps(ws, |ws| - 1);
    assert Members(w.cells, WithHold) == (set s | s in w.cells && w.cells[s].session.hold.Some?);
    assert Members(w.cells, Successful) == (set s | s in w.cells
      && w.cells[s].session.state in {Confirmed, Reconciled});
    assert Members(w.cells, ReconciledOnes) == InState(w, Reconciled);
    assert Members(w.cells, CompensatedOnes) == InState(w, Compensated);
    assert Members(w.cells, AbandonedOnes) == InState(w, Abandoned);
    forall s ensures s in w.cells && w.cells[s].pinned <==> OncePinned(ws, |ws| - 1, s) {
      MarkedIsPinned(ws, |ws| - 1, s);
    }
    assert Members(w.cells, EverPinned) == (set s | s in w.cells && OncePinned(ws, |ws| - 1, s));
    assert Reading(w.counters, WithHold) == |Members(w.cells, WithHold)|;
    assert Reading(w.counters, Successful) == |Members(w.cells, Successful)|;
    assert Reading(w.counters, ReconciledOnes) == |Members(w.cells, ReconciledOnes)|;
    assert Reading(w.counters, CompensatedOnes) == |Members(w.cells, CompensatedOnes)|;
    assert Reading(w.counters, AbandonedOnes) == |Members(w.cells, AbandonedOnes)|;
    assert Reading(w.counters, EverPinned) == |Members(w.cells, EverPinned)|;
    HoldsBalance(w);
  }

  ghost function AbandonedHolds(w: World): set<Sid> {
    set s | s in w.cells && w.cells[s].session.state == Abandoned && w.cells[s].session.hold.Some?
  }

  lemma HoldsBalance(w: World)
    requires Inv(w)
    ensures |Members(w.cells, WithHold)| ==
              |InState(w, Held)| + |InState(w, FulfillPending)| + |Members(w.cells, Successful)|
              + |InState(w, Compensated)| + |AbandonedHolds(w)|
  {
    HoldClasses(w);
    HoldClassesDisjoint(w);
    hide *;
    FiveSets(InState(w, Held), InState(w, FulfillPending), Members(w.cells, Successful), InState(w, Compensated),
      AbandonedHolds(w));
  }

  lemma HoldClasses(w: World)
    requires Inv(w)
    ensures Members(w.cells, WithHold) ==
              InState(w, Held) + InState(w, FulfillPending) + Members(w.cells, Successful) + InState(w, Compensated)
                + AbandonedHolds(w)
  {
    hide Inv, Shaped;
    forall s | s in w.cells
      ensures w.cells[s].session.hold.Some? <==>
                w.cells[s].session.state in {Held, FulfillPending, Confirmed, Reconciled, Compensated}
                || (w.cells[s].session.state == Abandoned && w.cells[s].session.hold.Some?)
    {
      ShapedCell(w, s);
      ShapedHold(w.cells[s].session);
    }
  }

  lemma HoldClassesDisjoint(w: World)
    ensures InState(w, Held) !! InState(w, FulfillPending) !! Members(w.cells, Successful) !! InState(w, Compensated)
              !! AbandonedHolds(w)
  {
  }

  lemma ShapedCell(w: World, s: Sid)
    requires Inv(w) && s in w.cells
    ensures Shaped(w.cells[s].session)
  {
    assert SliceOk(SliceOf(w, s));
  }

  lemma ShapedHold(x: Session)
    requires Shaped(x)
    ensures x.hold.Some? <==>
              || x.state in {Held, FulfillPending, Confirmed, Reconciled, Compensated}
              || (x.state == Abandoned && x.hold.Some?)
  {
  }

  lemma FiveSets<T>(a: set<T>, b: set<T>, c: set<T>, d: set<T>, e: set<T>)
    requires a !! b !! c !! d !! e
    ensures |a + b + c + d + e| == |a| + |b| + |c| + |d| + |e|
  {
  }
}
