/** Recoverability: from every reachable state one call without faults brings a session to its end. */
module Recovery {
  import opened Models
  import opened Retries
  import Orders
  import opened Cart
  import opened Metrics
  import opened Program
  import opened Slices
  import opened World
  import opened Reach
  import opened Lifecycle
  import opened Guarantees
  import opened Runs

  // ----- A call without faults ------------------------------------------------------------------------

  /** Up to `n` turns of task `tid`: its calls are answered without a fault and it gets its lock when it
      is free.  `newId` is what an upstream would mint. */
  ghost function Settle(w: World, tid: Tid, newId: nat, n: nat): World
    decreases n
  {
    if n == 0 then w
    else if CanRespond(w, tid, Fine, newId) then Settle(RespondStep(w, tid, Fine, newId), tid, newId, n - 1)
    else if Enabled(w, GetLock(tid)) then Settle(LockStep(w, tid), tid, newId, n - 1)
    else w
  }

  /** The state after an operation was started on a session and had all the turns it needs: a look at
      the hold, at most two locked sections, and at most 2 + 8 calls in them. */
  ghost function FaultFree(w: World, tid: Tid, s: Sid, op: Op, catalog: Catalog, newId: nat): World {
    Settle(StartStep(w, tid, s, op, catalog), tid, newId, 16)
  }

  /** Task `tid` is done with this answer, and the session is free and as given. */
  ghost predicate Ends(w: World, tid: Tid, s: Sid, y: Session, outcome: Outcome) {
    && s in w.cells && w.cells[s].session == y && w.cells[s].lock.None?
    && tid in w.tasks && w.tasks[tid].sid == s && w.tasks[tid].pc == Done(outcome)
  }

  /** Task `tid` holds the lock of `s` at `pc`, the session being as given. */
  ghost predicate Stands(w: World, tid: Tid, s: Sid, x: Session, pc: Pc) {
    && Inv(w) && HoldsLock(pc)
    && tid in w.tasks && w.tasks[tid] == Task(s, x, pc) && s in w.cells && w.cells[s].session == x
  }

  ghost predicate Begins(w: World, tid: Tid, s: Sid, x: Session, pc: Pc) {
    && Inv(w) && WantsLock(pc)
    && tid in w.tasks && w.tasks[tid].sid == s && w.tasks[tid].pc == pc
    && s in w.cells && w.cells[s].session == x && w.cells[s].lock.None?
  }

  /** Where task `tid` has come to, the session being as given. */
  ghost predicate Comes(w: World, tid: Tid, s: Sid, y: Session, pc: Pc) {
    && (HoldsLock(pc) ==> Stands(w, tid, s, y, pc))
    && (WantsLock(pc) ==> Begins(w, tid, s, y, pc))
    && (pc.Done? ==> Ends(w, tid, s, y, pc.outcome))
  }

  lemma Started(w: World, tid: Tid, s: Sid, op: Op, catalog: Catalog)
    requires Inv(w) && tid !in w.tasks && s in w.cells && w.cells[s].lock.None?
    requires WantsLock(StartEffect(w, s, op, catalog).pc)
    ensures var w1 := StartStep(w, tid, s, op, catalog);
            && w1.dedup == w.dedup && Begins(w1, tid, s, w.cells[s].session, StartEffect(w, s, op, catalog).pc)
            && w1.ihms == w.ihms && w1.ecops == w.ecops && w1.cells == w.cells && w1.clock == w.clock
                 && w1.issued == w.issued
  {
    hide Inv, Start;
    StartKeeps(w, tid, s, op, catalog);
  }

  /** The lock is granted. */
  lemma LockGranted(w: World, tid: Tid, s: Sid, x: Session, pc: Pc, newId: nat, n: nat)
    requires Begins(w, tid, s, x, pc) && n > 0
    ensures Enabled(w, GetLock(tid)) && Settle(w, tid, newId, n) == Settle(LockStep(w, tid), tid, newId, n - 1)
    ensures var e, w' := LockEffect(w, tid), LockStep(w, tid);
            && e == Enter(pc, Some(x), RecordAt(w, s, CacheKey(pc)), w.clock)
            && w'.dedup == w.dedup && w'.ihms == w.ihms && w'.ecops == w.ecops && w'.clock == w.clock
                 && w'.issued == w.issued
            && Comes(w', tid, s, SavedOr(x, e), e.pc)
  {
    hide Inv, Enter, Tally, LockStep;
    assert !CanRespond(w, tid, Fine, newId);
    LockKeeps(w, tid);
    LockComes(w, tid, s, x, pc);
  }

  lemma LockComes(w: World, tid: Tid, s: Sid, x: Session, pc: Pc)
    requires Begins(w, tid, s, x, pc) && Inv(LockStep(w, tid))
    ensures var e, w' := LockEffect(w, tid), LockStep(w, tid);
            && e == Enter(pc, Some(x), RecordAt(w, s, CacheKey(pc)), w.clock)
            && w'.dedup == w.dedup && w'.ihms == w.ihms && w'.ecops == w.ecops && w'.clock == w.clock
                 && w'.issued == w.issued
            && Comes(w', tid, s, SavedOr(x, e), e.pc)
  {
    hide Inv, Enter, Tally;
  }

  lemma DedupStays(w: World, tid: Tid, fault: Fault, newId: nat)
    requires CanRespond(w, tid, fault, newId)
    ensures RespondStep(w, tid, fault, newId).dedup == w.dedup && RespondStep(w, tid, fault, newId).clock == w.clock
  {
    hide Resume, Serve, Tally, Noted, ReleaseFailed;
  }

  /** After one reply. */
  lemma Replied(w: World, tid: Tid, s: Sid, x: Session, pc: Pc, fault: Fault, newId: nat, reply: Reply)
    requires Stands(w, tid, s, x, pc) && CanRespond(w, tid, fault, newId)
    requires reply == Serve(w, CallOf(pc, x), fault, newId).reply
    ensures Answers(CallOf(pc, x), reply)
    ensures var e, w' := Resume(pc, x, reply), RespondStep(w, tid, fault, newId);
            && w'.dedup == w.dedup && w'.clock == w.clock
            && w'.ihms == Serve(w, CallOf(pc, x), fault, newId).ihms
                 && w'.ecops == Serve(w, CallOf(pc, x), fault, newId).ecops
            && Comes(w', tid, s, SavedOr(x, e), e.pc)
  {
    hide Inv, Resume, Serve, RespondStep, Tally;
    DedupStays(w, tid, fault, newId);
    ServeAnswers(w, CallOf(pc, x), fault, newId);
    RespondKeeps(w, tid, fault, newId);
    ReplyFields(w, tid, fault, newId);
  }

  lemma SettledStays(w: World, tid: Tid, s: Sid, y: Session, outcome: Outcome, newId: nat, n: nat)
    requires Ends(w, tid, s, y, outcome)
    ensures Settle(w, tid, newId, n) == w
  {
    hide RespondStep, LockStep;
  }

  lemma CanAnswer(w: World, tid: Tid, s: Sid, x: Session, pc: Pc, fault: Fault, newId: nat)
    requires Stands(w, tid, s, x, pc)
    requires pc.AtFulfill? || pc.AtRelease? ==>
               x.hold.Some? && fault != Fault.Refused(404) && fault != Fault.Refused(409)
    requires pc.AtCreateHold? ==> newId !in w.issued
    requires pc.AtPost? ==> forall o :: o in w.ecops.orders ==> o.id != newId
    ensures CanRespond(w, tid, fault, newId)
  {
    hide SliceOk;
  }

  lemma HoldCallsKeepOrders(w: World, call: Call, newId: nat)
    requires call.ReleaseHold? || call.FulfillHold?
    ensures Serve(w, call, Fine, newId).ecops == w.ecops
  {
  }

  lemma ReleasedThen(why: ReleaseReason, x: Session, reply: Reply)
    requires x.hold.Some? && Settled(reply) && (reply.Failed? || reply.Accepted?)
    ensures Resume(AtRelease(why, 0), x, reply) == AfterRelease(why, x, Ok(true))
  {
  }

  lemma FulfilledThen(why: FulfillReason, x: Session, reply: Reply)
    requires x.hold.Some? && Settled(reply) && (reply.Failed? || reply.Accepted?)
    ensures Resume(AtFulfill(why, 0), x, reply) == AfterFulfill(why, x, true)
  {
  }

  // ----- Created and held sessions can be abandoned ---------------------------------------------------------

  lemma AbandonEntry(s: Slice)
    requires SliceOk(s) && s.session.state in {Created, Held}
    ensures var x := s.session;
            if x.state == Created then EnterAbandon(Some(x)) == FinishAbandon(x)
            else x.hold.Some? && EnterAbandon(Some(x)) == Go(AtRelease(Abandoning, 0))
  {
  }

  lemma AbandonRecovers(w: World, tid: Tid, s: Sid, catalog: Catalog, newId: nat)
    requires Reachable(w) && tid !in w.tasks && s in w.cells && w.cells[s].lock.None?
    requires w.cells[s].session.state in {Created, Held}
    ensures var y := w.cells[s].session.(state := Abandoned);
            Ends(FaultFree(w, tid, s, Abandon, catalog, newId), tid, s, y, Returned(y, false))
    ensures FaultFree(w, tid, s, Abandon, catalog, newId).ecops == w.ecops
  {
    hide Reachable, Inv, SliceOf, SliceOk, StartStep, LockStep, RespondStep, Resume, EnterAbandon, Serve, CanRespond,
      Ends, Stands, Begins, Settle;
    SliceHolds(w, s);
    SliceFields(w, s);
    var x := w.cells[s].session;
    var w1 := StartStep(w, tid, s, Abandon, catalog);
    Started(w, tid, s, Abandon, catalog);
    LockGranted(w1, tid, s, x, AtAbandonLock, newId, 16);
    var w2 := LockStep(w1, tid);
    AbandonEntry(SliceOf(w, s));
    if x.state == Created {
      SettledStays(w2, tid, s, x.(state := Abandoned), Returned(x.(state := Abandoned), false), newId, 15);
    } else {
      ReleaseSettles(w2, tid, s, x, Abandoning, newId, 15);
    }
  }

  lemma ReleaseSettles(w: World, tid: Tid, s: Sid, x: Session, why: ReleaseReason, newId: nat, n: nat)
    requires Stands(w, tid, s, x, AtRelease(why, 0)) && x.hold.Some? && n > 0
    ensures var e := AfterRelease(why, x, Ok(true));
            e.pc.Done? && Ends(Settle(w, tid, newId, n), tid, s, SavedOr(x, e), e.pc.outcome)
    ensures Settle(w, tid, newId, n).ecops == w.ecops
  {
    hide Inv, RespondStep, Resume, Serve, CanRespond, Ends, Stands;
    var pc := AtRelease(why, 0);
    var reply := Serve(w, ReleaseHold(x.hold.value), Fine, newId).reply;
    CanAnswer(w, tid, s, x, pc, Fine, newId);
    FineHold(w, ReleaseHold(x.hold.value), newId);
    HoldCallsKeepOrders(w, ReleaseHold(x.hold.value), newId);
    Replied(w, tid, s, x, pc, Fine, newId, reply);
    ReleasedThen(why, x, reply);
    var e := AfterRelease(why, x, Ok(true));
    SettledStays(RespondStep(w, tid, Fine, newId), tid, s, SavedOr(x, e), e.pc.outcome, newId, n - 1);
  }

  // ----- A pending session is confirmed by its own key ---------------------------------------------------------

  lemma FulfillSettles(w: World, tid: Tid, s: Sid, x: Session, why: FulfillReason, newId: nat, n: nat)
    requires Stands(w, tid, s, x, AtFulfill(why, 0)) && x.hold.Some? && n > 0 && AfterFulfill(why, x, true).pc.Done?
    ensures var e := AfterFulfill(why, x, true);
            Ends(Settle(w, tid, newId, n), tid, s, SavedOr(x, e), e.pc.outcome)
  {
    hide Inv, RespondStep, Resume, Serve, CanRespond, AfterFulfill, Ends, Stands;
    var pc := AtFulfill(why, 0);
    var reply := Serve(w, FulfillHold(x.hold.value), Fine, newId).reply;
    CanAnswer(w, tid, s, x, pc, Fine, newId);
    FineHold(w, FulfillHold(x.hold.value), newId);
    Replied(w, tid, s, x, pc, Fine, newId, reply);
    FulfilledThen(why, x, reply);
    var e := AfterFulfill(why, x, true);
    SettledStays(RespondStep(w, tid, Fine, newId), tid, s, SavedOr(x, e), e.pc.outcome, newId, n - 1);
  }

  /** With its key pinned a session meets neither the gate of the service nor the expiry check. */
  lemma PinnedStart(w: World, s: Sid, op: Op, catalog: Catalog, key: Key)
    requires s in w.cells && w.cells[s].session.key == Some(key)
    requires (op.Confirm? || op.GatedConfirm?) && op.key == key
    ensures StartEffect(w, s, op, catalog) == Go(AtConfirmLock(op.customerArg, key))
  {
  }

  lemma PendingEntry(s: Slice, customer: Option<string>, key: Key, now: int)
    requires SliceOk(s) && s.session.state == FulfillPending && s.session.key == Some(key)
    ensures s.session.hold.Some? && s.session.order.Some? && key in s.recs
    ensures EnterConfirm(customer, key, Some(s.session), Some(s.recs[key]), now)
              == Effect(AtFulfill(Pending(key, true), 0), Some(s.session), None, None)
    ensures var e := AfterFulfill(Pending(key, true), s.session, true);
            var y := s.session.(state := Confirmed);
            SavedOr(s.session, e) == y && e.pc == Done(Returned(y, true))
  {
    RepairIsIdle(s, key, {Held, FulfillPending});
  }

  lemma PendingRecovers(w: World, tid: Tid, s: Sid, op: Op, catalog: Catalog, newId: nat)
    requires Reachable(w) && tid !in w.tasks && s in w.cells && w.cells[s].lock.None?
    requires w.cells[s].session.state == FulfillPending
    requires (op.Confirm? || op.GatedConfirm?) && w.cells[s].session.key == Some(op.key)
    ensures var y := w.cells[s].session.(state := Confirmed);
            Ends(FaultFree(w, tid, s, op, catalog, newId), tid, s, y, Returned(y, true))
  {
    hide Reachable, Inv, SliceOk, StartStep, LockStep, EnterConfirm, CanRespond, AfterFulfill, Ends, Settle, Start;
    SliceHolds(w, s);
    SliceFields(w, s);
    var x := w.cells[s].session;
    PinnedStart(w, s, op, catalog, op.key);
    Started(w, tid, s, op, catalog);
    var w1 := StartStep(w, tid, s, op, catalog);
    LockGranted(w1, tid, s, x, AtConfirmLock(op.customerArg, op.key), newId, 16);
    PendingEntry(SliceOf(w, s), op.customerArg, op.key, w.clock);
    FulfillSettles(LockStep(w1, tid), tid, s, x, Pending(op.key, true), newId, 15);
  }

  // ----- A pinned session is reconciled exactly when its order exists ---------------------------------------------

  /** The expiry of the hold plays no part: `now` is arbitrary. */
  lemma PinnedEntry(s: Slice, customer: Option<string>, key: Key, now: int)
    requires SliceOk(s) && s.session.state == Held && s.session.key == Some(key)
    ensures s.session.hold.Some? && key !in s.recs
    ensures EnterConfirm(customer, key, Some(s.session), None, now) == Go(AtLookup(Unresolved(key), 0, MAX_RETRIES))
  {
  }

  function FirstOf(orders: seq<Order>): Option<Order> {
    if orders == [] then None else Some(orders[0])
  }

  lemma FineLookup(w: World, s: Sid, newId: nat)
    requires s in w.cells
    ensures Serve(w, FindOrder(w.cells[s].session.ref), Fine, newId).reply == Found(FirstOf(OrdersOf(w, s)))
  {
  }

  lemma LookupChangesNothing(w: World, ref: Ref, newId: nat)
    ensures Serve(w, FindOrder(ref), Fine, newId).ecops == w.ecops
  {
  }

  /** What a completed lookup leads to. */
  function LookupEffect(why: LookupReason, attempt: nat, max: nat, x: Session, orders: seq<Order>): Effect {
    if orders == [] && attempt < max then Go(AtLookup(why, attempt + 1, max))
      else AfterLookup(why, x, Ok(FirstOf(orders)))
  }

  lemma LookupResumes(why: LookupReason, attempt: nat, max: nat, x: Session, orders: seq<Order>)
    ensures Resume(AtLookup(why, attempt, max), x, Found(FirstOf(orders))) == LookupEffect(why, attempt, max, x, orders)
  {
  }

  /** One lookup. */
  lemma LookedUp(w: World, tid: Tid, s: Sid, x: Session, why: LookupReason, attempt: nat, max: nat, newId: nat, n: nat)
    requires Stands(w, tid, s, x, AtLookup(why, attempt, max)) && n > 0
    ensures CanRespond(w, tid, Fine, newId)
    ensures var e, w' := LookupEffect(why, attempt, max, x, OrdersOf(w, s)), RespondStep(w, tid, Fine, newId);
            && Settle(w, tid, newId, n) == Settle(w', tid, newId, n - 1) && w'.ecops == w.ecops && w'.dedup == w.dedup
            && Comes(w', tid, s, SavedOr(x, e), e.pc)
  {
    hide Inv, RespondStep, Resume, Serve, CanRespond, Ends, OrdersOf;
    var pc := AtLookup(why, attempt, max);
    CanAnswer(w, tid, s, x, pc, Fine, newId);
    FineLookup(w, s, newId);
    LookupChangesNothing(w, x.ref, newId);
    LookupResumes(why, attempt, max, x, OrdersOf(w, s));
    Replied(w, tid, s, x, pc, Fine, newId, Serve(w, FindOrder(x.ref), Fine, newId).reply);
  }

  /** A whole lookup loop that never finds an order. */
  lemma {:induction false} EmptyLookups(w: World, tid: Tid, s: Sid, x: Session, why: LookupReason, attempt: nat,
                                        max: nat, newId: nat, n: nat)
    returns (w': World)
    requires attempt <= max && Stands(w, tid, s, x, AtLookup(why, attempt, max))
    requires s in w.cells && OrdersOf(w, s) == [] && n + attempt > max
    ensures Settle(w, tid, newId, n) == Settle(w', tid, newId, n - (max - attempt + 1)) && w'.ecops == w.ecops
    ensures w'.dedup == w.dedup
    ensures var e := AfterLookup(why, x, Ok(None));
            && Comes(w', tid, s, SavedOr(x, e), e.pc)
    decreases n
  {
    hide Inv, RespondStep, Resume, Serve, CanRespond, Ends, Settle, Orders.OrdersFor, AfterLookup;
    LookedUp(w, tid, s, x, why, attempt, max, newId, n);
    w' := RespondStep(w, tid, Fine, newId);
    if attempt < max {
      w' := EmptyLookups(w', tid, s, x, why, attempt + 1, max, newId, n - 1);
    }
  }

  /** The pinned attempt is found, and completed as reconciled. */
  lemma FoundSettles(w: World, tid: Tid, s: Sid, x: Session, key: Key, newId: nat, n: nat)
    requires Stands(w, tid, s, x, AtLookup(Unresolved(key), 0, MAX_RETRIES)) && x.hold.Some? && x.state == Held && n > 1
    requires s in w.cells && OrdersOf(w, s) != []
    ensures var y := x.(state := Reconciled, order := Some(OrdersOf(w, s)[0].id), key := Some(key));
            Ends(Settle(w, tid, newId, n), tid, s, y, Returned(y, false))
  {
    hide Inv, RespondStep, Resume, Serve, CanRespond, Ends, Settle, AfterFulfill, OrdersOf, Stands;
    var order := OrdersOf(w, s)[0];
    LookedUp(w, tid, s, x, Unresolved(key), 0, MAX_RETRIES, newId, n);
    FoundThen(x, key, order);
    var w' := RespondStep(w, tid, Fine, newId);
    FulfillSettles(w', tid, s, x, NewOrder(order, key, true), newId, n - 1);
  }

  lemma FoundThen(x: Session, key: Key, order: Order)
    requires x.hold.Some? && x.state == Held
    ensures AfterLookup(Unresolved(key), x, Ok(Some(order))) == Go(AtFulfill(NewOrder(order, key, true), 0))
    ensures var e := AfterFulfill(NewOrder(order, key, true), x, true);
            var y := x.(state := Reconciled, order := Some(order.id), key := Some(key));
            SavedOr(x, e) == y && e.pc == Done(Returned(y, false))
  {
  }

  /** One fault-free confirm with the pinned key reconciles the session exactly when its order exists,
      whenever it is made; otherwise it changes nothing and the session is left to abandon. */
  lemma PinnedRecovers(w: World, tid: Tid, s: Sid, op: Op, catalog: Catalog, newId: nat)
    requires Reachable(w) && tid !in w.tasks && s in w.cells && w.cells[s].lock.None?
    requires w.cells[s].session.state == Held
    requires (op.Confirm? || op.GatedConfirm?) && w.cells[s].session.key == Some(op.key)
    ensures var x, orders := w.cells[s].session, OrdersOf(w, s);
            if orders != [] then
              var y := x.(state := Reconciled, order := Some(orders[0].id));
              Ends(FaultFree(w, tid, s, op, catalog, newId), tid, s, y, Returned(y, false))
            else
              Ends(FaultFree(w, tid, s, op, catalog, newId), tid, s, x, Raised(OrderStatusUnknown))
  {
    hide Reachable, Inv, SliceOk, StartStep, LockStep, EnterConfirm, CanRespond, Ends, Settle, Start, Orders.OrdersFor;
    SliceHolds(w, s);
    SliceFields(w, s);
    var x := w.cells[s].session;
    PinnedStart(w, s, op, catalog, op.key);
    Started(w, tid, s, op, catalog);
    var w1 := StartStep(w, tid, s, op, catalog);
    LockGranted(w1, tid, s, x, AtConfirmLock(op.customerArg, op.key), newId, 16);
    PinnedEntry(SliceOf(w, s), op.customerArg, op.key, w.clock);
    var w2 := LockStep(w1, tid);
    if OrdersOf(w, s) != [] {
      FoundSettles(w2, tid, s, x, op.key, newId, 15);
    } else {
      var w3 := EmptyLookups(w2, tid, s, x, Unresolved(op.key), 0, MAX_RETRIES, newId, 15);
      SettledStays(w3, tid, s, x, Raised(OrderStatusUnknown), newId, 12);
    }
  }

  // ----- What a call without faults keeps --------------------------------------------------------------------

  lemma {:induction false} SettleFollows(w: World, tid: Tid, newId: nat, n: nat, s: Sid)
    requires Reachable(w) && s in w.cells
    ensures Follows(w, Settle(w, tid, newId, n), s)
    decreases n
  {
    hide Reachable, RespondStep, LockStep, CanRespond;
    if n > 0 && CanRespond(w, tid, Fine, newId) {
      var step := Respond(tid, Fine, newId);
      assert Enabled(w, step);
      StepFollows(w, step, s);
      SettleFollows(Take(w, step), tid, newId, n - 1, s);
    } else if n > 0 && Enabled(w, GetLock(tid)) {
      StepFollows(w, GetLock(tid), s);
      SettleFollows(Take(w, GetLock(tid)), tid, newId, n - 1, s);
    }
  }

  lemma FaultFreeFollows(w: World, tid: Tid, s: Sid, op: Op, catalog: Catalog, newId: nat)
    requires Reachable(w) && tid !in w.tasks && s in w.cells
    ensures Follows(w, FaultFree(w, tid, s, op, catalog, newId), s)
  {
    hide Reachable, StartStep, Settle;
    var start := StartOp(tid, s, op, catalog);
    assert Enabled(w, start);
    StepFollows(w, start, s);
    SettleFollows(Take(w, start), tid, newId, 16, s);
  }

  // ----- No operation is stuck -------------------------------------------------------------------

  lemma {:induction false} Bound(ids: set<nat>) returns (b: nat)
    ensures forall i :: i in ids ==> i < b
    decreases |ids|
  {
    if ids == {} {
      b := 0;
    } else {
      var i :| i in ids;
      var rest := ids - {i};
      b := Bound(rest);
      b := if b <= i then i + 1 else b;
      forall j | j in ids ensures j < b {
        assert j == i || j in rest;
      }
    }
  }

  lemma HolderHasHold(s: Slice)
    requires SliceOk(s) && s.at.Some? && (s.at.value.AtFulfill? || s.at.value.AtRelease?)
    ensures s.session.hold.Some?
  {
  }

  lemma HolderCanMove(w: World, t: Tid)
    requires Inv(w) && t in w.tasks && HoldsLock(w.tasks[t].pc)
    ensures exists newId :: CanRespond(w, t, Fine, newId)
  {
    hide Inv, SliceOk, CanRespond;
    HolderIsCurrent(w, t);
    var s := w.tasks[t].sid;
    if w.tasks[t].pc.AtFulfill? || w.tasks[t].pc.AtRelease? {
      HolderHasHold(SliceOf(w, s));
    }
    var ids := set o | o in w.ecops.orders :: o.id;
    var newId := Bound(w.issued + ids);
    assert newId !in w.issued;
    forall o | o in w.ecops.orders ensures o.id != newId {
      assert o.id in w.issued + ids;
    }
    CanAnswer(w, t, s, w.tasks[t].local, w.tasks[t].pc, Fine, newId);
  }

  /** An operation that is not done can go on: its call can be answered, its lock is free, or the holder
      of that lock can itself be answered. */
  lemma NoDeadlock(w: World, tid: Tid)
    requires Reachable(w) && tid in w.tasks && !w.tasks[tid].pc.Done?
    ensures AwaitsCall(w.tasks[tid].pc) || WantsLock(w.tasks[tid].pc)
    ensures AwaitsCall(w.tasks[tid].pc) ==> exists newId :: CanRespond(w, tid, Fine, newId)
    ensures WantsLock(w.tasks[tid].pc) && !Enabled(w, GetLock(tid)) ==>
              var s := w.tasks[tid].sid;
              s in w.cells && w.cells[s].lock.Some? && w.cells[s].lock.value in w.tasks
              && exists newId :: CanRespond(w, w.cells[s].lock.value, Fine, newId)
  {
    hide Reachable, Inv;
    ReachableOk(w);
    var t := w.tasks[tid];
    if HoldsLock(t.pc) {
      HolderCanMove(w, tid);
    } else if t.pc.AtGate? {
      assert CanRespond(w, tid, Fine, 0);
    } else if !Enabled(w, GetLock(tid)) {
      LockedBy(w, t.sid);
      HolderCanMove(w, w.cells[t.sid].lock.value);
    }
  }

  lemma LockedBy(w: World, s: Sid)
    requires Inv(w) && s in w.cells && w.cells[s].lock.Some?
    ensures w.cells[s].lock.value in w.tasks && HoldsLock(w.tasks[w.cells[s].lock.value].pc)
  {
    hide SliceOk;
  }
}
