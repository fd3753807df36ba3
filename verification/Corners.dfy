/** Where the code parts from its documentation: each case from any state that allows it, and shown to
happen. */
module Corners {
  import opened Models
  import opened Gateways
  import opened Retries
  import opened Inventory
  import Orders
  import opened Cart
  import opened Metrics
  import opened Program
  import opened Slices
  import opened World
  import opened Reach
  import opened Lifecycle
  import opened Guarantees
  import opened Runs
  import opened Recovery
  import opened Decisions
  import opened Audit
  import opened Outcomes

  // ----- An order of unknown fate ------------------------------------------------------------------------

  /** One call that times out. */
  lemma TimesOut(w: World, tid: Tid, s: Sid, x: Session, pc: Pc, applied: bool, newId: nat) returns (w': World)
    requires Reachable(w) && Stands(w, tid, s, x, pc)
    requires (pc.AtFulfill? || pc.AtRelease? ==> x.hold.Some?) && !pc.AtCreateHold?
    requires pc.AtPost? ==> forall o :: o in w.ecops.orders ==> o.id != newId
    ensures Answers(CallOf(pc, x), Failed(Timeout))
    ensures Reachable(w') && w'.clock == w.clock && w'.dedup == w.dedup && s in w'.cells
    ensures w'.ihms == Serve(w, CallOf(pc, x), TimedOutCall(applied), newId).ihms
    ensures w'.ecops == Serve(w, CallOf(pc, x), TimedOutCall(applied), newId).ecops
    ensures Comes(w', tid, s, SavedOr(x, Resume(pc, x, Failed(Timeout))), Resume(pc, x, Failed(Timeout)).pc)
    ensures !pc.AtRelease? ==> w'.cells[s].unclean == w.cells[s].unclean && w'.cells[s].lost == w.cells[s].lost
    ensures KeepsFound(w.cells[s], w'.cells[s])
  {
    hide Reachable, Inv, Resume, RespondStep, CanRespond, Serve, Ends;
    var fault := TimedOutCall(applied);
    TimeoutReply(w, CallOf(pc, x), applied, newId);
    CanAnswer(w, tid, s, x, pc, fault, newId);
    w' := RespondStep(w, tid, fault, newId);
    ReachReply(w, tid, fault, newId);
    Replied(w, tid, s, x, pc, fault, newId, Failed(Timeout));
    ReplyFields(w, tid, fault, newId);
    ReplyMarks(w, tid, fault, newId, s);
  }

  lemma TimeoutReply(w: World, call: Call, applied: bool, newId: nat)
    ensures Serve(w, call, TimedOutCall(applied), newId).reply == Failed(Timeout)
  {
  }

  lemma TimedPost(w: World, s: Sid, body: OrderBody, key: Key, newId: nat)
    requires s in w.cells && OrdersOf(w, s) == [] && body.ref == w.cells[s].session.ref && !KeyTaken(w, key)
    requires Orders.ValidBody(body)
    ensures Orders.OrdersFor(Serve(w, PostOrder(body, key), TimedOutCall(true), newId).ecops.orders, body.ref) != []
  {
    hide Orders.CreateOrderAt, Orders.OrdersFor, Orders.ById, Orders.ValidBody;
    Orders.ConflictOnFreshRef(w.ecops, key, body, newId);
    Orders.CreateOutcome(w.ecops, key, body, newId);
    Orders.OrdersForAppend(w.ecops.orders, Order(newId, body), body.ref);
  }

  lemma TimedLookup(w: World, ref: Ref, newId: nat)
    ensures Serve(w, FindOrder(ref), TimedOutCall(false), newId).ecops == w.ecops
  {
  }

  /** The lookups after a timed-out POST all time out: the key is pinned. */
  lemma {:induction false} LookupsTimeOut(w: World, tid: Tid, s: Sid, x: Session, key: Key, attempt: nat)
    returns (w': World)
    requires Reachable(w) && attempt <= MAX_RETRIES
    requires Stands(w, tid, s, x, AtLookup(AfterTimeout(key), attempt, MAX_RETRIES))
    ensures Reachable(w') && w'.ecops == w.ecops && s in w.cells && s in w'.cells
    ensures w'.cells[s].unclean == w.cells[s].unclean
    ensures Ends(w', tid, s, x.(key := Some(key)), Raised(OrderStatusUnknown))
    decreases MAX_RETRIES - attempt
  {
    hide Reachable, Inv, Resume, Serve, Ends;
    var pc := AtLookup(AfterTimeout(key), attempt, MAX_RETRIES);
    w' := TimesOut(w, tid, s, x, pc, false, 0);
    TimedLookup(w, x.ref, 0);
    PinsThen(x, key, attempt);
    if attempt < MAX_RETRIES {
      w' := LookupsTimeOut(w', tid, s, x, key, attempt + 1);
    }
  }

  lemma PinsThen(x: Session, key: Key, attempt: nat)
    ensures Resume(AtLookup(AfterTimeout(key), attempt, MAX_RETRIES), x, Failed(Timeout))
              == if attempt < MAX_RETRIES then Go(AtLookup(AfterTimeout(key), attempt + 1, MAX_RETRIES))
                else Pin(x, key)
  {
  }

  lemma PostThen(x: Session, name: string, key: Key)
    ensures Resume(AtPost(name, key), x, Failed(Timeout)) == Go(AtLookup(AfterTimeout(key), 0, MAX_RETRIES))
  {
  }

  /** From any reachable held session: a confirm whose POST is stored but times out, and whose lookups
      time out too, pins the key of a session that has its order. */
  lemma AmbiguousConfirm(w: World, tid: Tid, s: Sid, op: Op, catalog: Catalog, newId: nat) returns (w': World)
    requires Reachable(w) && tid !in w.tasks && s in w.cells && w.cells[s].lock.None?
    requires w.cells[s].session.state == Held && w.cells[s].session.key.None? && !Expired(w.cells[s].session, w.clock)
    requires (op.Confirm? || op.PlaceOrder?) && NameFor(op, w.cells[s].session) !in {None, Some("")}
               && !KeyTaken(w, op.key)
    requires forall o :: o in w.ecops.orders ==> o.id != newId
    ensures Reachable(w') && s in w'.cells && w'.cells[s].lock.None? && w'.cells[s].unclean == w.cells[s].unclean
    ensures w'.cells[s].session == w.cells[s].session.(key := Some(op.key)) && OrdersOf(w', s) != []
  {
    hide Reachable, Inv, SliceOk, StartStep, LockStep, EnterConfirm, CanRespond, Settle, Start, Orders.OrdersFor,
      KeyTaken, RespondStep, OrElse, Expired, Resume, Serve, AfterLookup, OrderPayload, Stands, Orders.ValidBody;
    var x := w.cells[s].session;
    var w3 := ConfirmLooks(w, tid, s, op, catalog, newId);
    var name := NameFor(op, x).value;
    var w4 := TimesOut(w3, tid, s, x, AtPost(name, op.key), true, newId);
    PostThen(x, name, op.key);
    PayloadRef(x, name);
    StandsValid(w3, tid, s, x, name, op.key);
    TimedPost(w3, s, OrderPayload(x, name), op.key, newId);
    w' := LookupsTimeOut(w4, tid, s, x, op.key, 0);
  }

  /** A confirm up to its POST. */
  lemma ConfirmLooks(w: World, tid: Tid, s: Sid, op: Op, catalog: Catalog, newId: nat) returns (w': World)
    requires Reachable(w) && tid !in w.tasks && s in w.cells && w.cells[s].lock.None?
    requires w.cells[s].session.state == Held && w.cells[s].session.key.None? && !Expired(w.cells[s].session, w.clock)
    requires (op.Confirm? || op.PlaceOrder?) && NameFor(op, w.cells[s].session) !in {None, Some("")}
    ensures Reachable(w')
    ensures Stands(w', tid, s, w.cells[s].session, AtPost(NameFor(op, w.cells[s].session).value, op.key))
    ensures s in w'.cells && w'.cells[s].session == w.cells[s].session
    ensures w'.ecops == w.ecops && w'.dedup == w.dedup && OrdersOf(w', s) == []
    ensures w'.cells[s].unclean == w.cells[s].unclean
    ensures KeyTaken(w', op.key) == KeyTaken(w, op.key)
  {
    hide Reachable, Inv, SliceOk, StartStep, LockStep, EnterConfirm, CanRespond, Settle, Start, Orders.OrdersFor,
      RespondStep, OrElse, Expired;
    var w2 := ConfirmLocks(w, tid, s, op, catalog);
    var x := w.cells[s].session;
    var name := NameFor(op, x).value;
    LookedUp(w2, tid, s, x, BeforePost(name, op.key), 0, 0, newId, 1);
    w' := RespondStep(w2, tid, Fine, newId);
    ReachReply(w2, tid, Fine, newId);
    ReplyFields(w2, tid, Fine, newId);
    ReplyMarks(w2, tid, Fine, newId, s);
    SameKeyTaken(w, w', op.key);
  }

  /** A confirm up to its first lookup. */
  lemma ConfirmLocks(w: World, tid: Tid, s: Sid, op: Op, catalog: Catalog) returns (w': World)
    requires Reachable(w) && tid !in w.tasks && s in w.cells && w.cells[s].lock.None?
    requires w.cells[s].session.state == Held && w.cells[s].session.key.None? && !Expired(w.cells[s].session, w.clock)
    requires (op.Confirm? || op.PlaceOrder?) && NameFor(op, w.cells[s].session) !in {None, Some("")}
    ensures Reachable(w')
    ensures Stands(w', tid, s, w.cells[s].session,
              AtLookup(BeforePost(NameFor(op, w.cells[s].session).value, op.key), 0, 0))
    ensures w'.ihms == w.ihms && w'.ecops == w.ecops && w'.dedup == w.dedup && w'.clock == w.clock
    ensures OrdersOf(w, s) == [] && OrdersOf(w', s) == [] && w.cells[s].session.hold.Some?
    ensures w'.cells[s].unclean == w.cells[s].unclean
  {
    hide Reachable, Inv, SliceOk, StartStep, LockStep, EnterConfirm, Start, Orders.OrdersFor, OrElse, Expired,
      CustomerArg, Settle;
    SliceHolds(w, s);
    FreeSlot(w, s);
    SliceFields(w, s);
    var x := w.cells[s].session;
    HeldEntry(SliceOf(w, s), CustomerArg(op, x), op.key, w.clock);
    HeldStart(w, s, op, catalog);
    Started(w, tid, s, op, catalog);
    var start := StartOp(tid, s, op, catalog);
    var w1 := Take(w, start);
    ReachStep(w, start);
    LockGranted(w1, tid, s, x, AtConfirmLock(CustomerArg(op, x), op.key), 0, 1);
    ReachStep(w1, GetLock(tid));
    StepMarks(w, start, s);
    StepMarks(w1, GetLock(tid), s);
    w' := LockStep(w1, tid);
    assert w'.cells[s].unclean == w1.cells[s].unclean == w.cells[s].unclean;
    assert w'.ecops == w.ecops && w'.cells[s].session == x;
  }

  // ----- A release that is not acknowledged -----------------------------------------------------------------

  lemma TimedRelease(w: World, h: HoldId, newId: nat)
    requires HoldStatus(w.ihms, Some(h)) in {Some(Active), None}
    ensures HoldStatus(Serve(w, ReleaseHold(h), TimedOutCall(true), newId).ihms, Some(h)) == None
  {
  }

  /** Every release is carried out upstream, or was before, and every answer is lost. */
  lemma {:induction false} ReleasesTimeOut(w: World, tid: Tid, s: Sid, x: Session, cause: Failure, attempt: nat)
    returns (w': World)
    requires Reachable(w) && attempt <= MAX_RETRIES && x.hold.Some? && x.state == Held
    requires Stands(w, tid, s, x, AtRelease(Compensating(cause), attempt))
    ensures Reachable(w') && s in w'.cells && w'.clock == w.clock
    ensures Ends(w', tid, s, x, Raised(CompensationIncomplete)) && HoldStatus(w'.ihms, x.hold) == None
    decreases MAX_RETRIES - attempt
  {
    hide Reachable, Resume, Serve, Ends, HoldStatus, SliceOk;
    var pc := AtRelease(Compensating(cause), attempt);
    HolderIsCurrent(w, tid);
    ReleasableHold(SliceOf(w, s));
    HoldOfSlice(w, s);
    w' := TimesOut(w, tid, s, x, pc, true, 0);
    TimedRelease(w, x.hold.value, 0);
    GivesUpThen(x, cause, attempt);
    if attempt < MAX_RETRIES {
      w' := ReleasesTimeOut(w', tid, s, x, cause, attempt + 1);
    }
  }

  lemma ReleasableHold(s: Slice)
    requires SliceOk(s) && s.at.Some? && s.at.value.AtRelease?
    ensures s.hold in {Some(Active), None}
  {
  }

  lemma GivesUpThen(x: Session, cause: Failure, attempt: nat)
    requires x.hold.Some?
    ensures Resume(AtRelease(Compensating(cause), attempt), x, Failed(Timeout))
              == if attempt < MAX_RETRIES then Go(AtRelease(Compensating(cause), attempt + 1))
                else Fail(CompensationIncomplete)
  {
  }

  /** From any reachable held session: a confirm whose first lookup times out, and whose releases take
      effect without an answer, leaves the session held and its hold gone. */
  lemma LosesHold(w: World, tid: Tid, s: Sid, op: Op, catalog: Catalog) returns (w': World)
    requires Reachable(w) && tid !in w.tasks && s in w.cells && w.cells[s].lock.None?
    requires w.cells[s].session.state == Held && w.cells[s].session.key.None? && !Expired(w.cells[s].session, w.clock)
    requires (op.Confirm? || op.PlaceOrder?) && NameFor(op, w.cells[s].session) !in {None, Some("")}
    ensures Reachable(w') && s in w'.cells && w'.cells[s].lock.None? && w'.clock == w.clock
    ensures w'.cells[s].session == w.cells[s].session && HoldOf(w', s) == None && w'.cells[s].lost
  {
    hide Reachable, Inv, SliceOk, Start, OrElse, Expired, Resume, Serve;
    var x := w.cells[s].session;
    var name := NameFor(op, x).value;
    var w2 := ConfirmLocks(w, tid, s, op, catalog);
    var w3 := TimesOut(w2, tid, s, x, AtLookup(BeforePost(name, op.key), 0, 0), false, 0);
    GoesToRelease(x, name, op.key);
    w' := ReleasesTimeOut(w3, tid, s, x, Timeout, 0);
    SliceHolds(w', s);
    LostSlice(SliceOf(w', s));
  }

  lemma GoesToRelease(x: Session, name: string, key: Key)
    requires x.hold.Some?
    ensures Resume(AtLookup(BeforePost(name, key), 0, 0), x, Failed(Timeout)) == Go(AtRelease(Compensating(Timeout), 0))
  {
  }

  lemma LostSlice(s: Slice)
    requires SliceOk(s) && s.at.None? && s.session.state == Held && s.hold == None
    ensures s.lost
  {
  }

  // ----- A looked-up order that is not fulfilled at once ------------------------------------------------------

  lemma {:induction false} FulfillsTimeOut(w: World, tid: Tid, s: Sid, x: Session, order: Order, key: Key, attempt: nat)
    returns (w': World)
    requires Reachable(w) && attempt <= MAX_RETRIES && x.hold.Some?
    requires Stands(w, tid, s, x, AtFulfill(NewOrder(order, key, true), attempt))
    ensures Reachable(w') && s in w.cells && s in w'.cells && KeepsFound(w.cells[s], w'.cells[s])
    ensures var y := x.(state := FulfillPending, order := Some(order.id), key := Some(key));
            Ends(w', tid, s, y, Returned(y, false))
    decreases MAX_RETRIES - attempt
  {
    hide Reachable, Inv, Resume, Serve, Ends, FoundIn;
    w' := TimesOut(w, tid, s, x, AtFulfill(NewOrder(order, key, true), attempt), false, 0);
    PendsThen(x, order, key, attempt);
    if attempt < MAX_RETRIES {
      w' := FulfillsTimeOut(w', tid, s, x, order, key, attempt + 1);
    }
  }

  lemma PendsThen(x: Session, order: Order, key: Key, attempt: nat)
    requires x.hold.Some?
    ensures var e := Resume(AtFulfill(NewOrder(order, key, true), attempt), x, Failed(Timeout));
            if attempt < MAX_RETRIES then e == Go(AtFulfill(NewOrder(order, key, true), attempt + 1)) else
              var y := x.(state := FulfillPending, order := Some(order.id), key := Some(key));
              e.pc == Done(Returned(y, false)) && SavedOr(x, e) == y
  {
  }

  /** From any reachable free session with a pinned key and an order: a confirm with that key finds the
      order, and when its fulfils time out the session is left FULFILL_PENDING. */
  lemma FoundButPending(w: World, tid: Tid, s: Sid, key: Key) returns (w': World)
    requires Reachable(w) && tid !in w.tasks && s in w.cells && w.cells[s].lock.None?
    requires w.cells[s].session.state == Held && w.cells[s].session.key == Some(key) && OrdersOf(w, s) != []
    ensures Reachable(w') && s in w'.cells && w'.cells[s].lock.None?
    ensures var o := OrdersOf(w, s)[0];
            && w'.cells[s].session == w.cells[s].session.(state := FulfillPending, order := Some(o.id))
            && FoundIn(w'.cells[s].sections, o)
  {
    hide Reachable, Inv, SliceOk, StartStep, LockStep, EnterConfirm, Start, Orders.OrdersFor, Settle, RespondStep,
      CanRespond, FoundIn, AfterLookup;
    var x, order := w.cells[s].session, OrdersOf(w, s)[0];
    var op := GatedConfirm(None, key);
    SliceHolds(w, s);
    SliceFields(w, s);
    PinnedStart(w, s, op, map[], key);
    Started(w, tid, s, op, map[]);
    var w1 := Take(w, StartOp(tid, s, op, map[]));
    ReachStep(w, StartOp(tid, s, op, map[]));
    LockGranted(w1, tid, s, x, AtConfirmLock(None, key), 0, 1);
    ReachStep(w1, GetLock(tid));
    PinnedEntry(SliceOf(w, s), None, key, w.clock);
    var w2 := LockStep(w1, tid);
    LookedUp(w2, tid, s, x, Unresolved(key), 0, MAX_RETRIES, 0, 1);
    ReachReply(w2, tid, Fine, 0);
    FoundThen(x, key, order);
    var w3 := RespondStep(w2, tid, Fine, 0);
    LookupIsNoted(w2, tid, s, x, key);
    w' := FulfillsTimeOut(w3, tid, s, x, order, key, 0);
  }

  lemma LookupIsNoted(w: World, tid: Tid, s: Sid, x: Session, key: Key)
    requires Stands(w, tid, s, x, AtLookup(Unresolved(key), 0, MAX_RETRIES)) && CanRespond(w, tid, Fine, 0)
    requires s in w.cells && OrdersOf(w, s) != []
    ensures s in RespondStep(w, tid, Fine, 0).cells
    ensures FoundIn(RespondStep(w, tid, Fine, 0).cells[s].sections, OrdersOf(w, s)[0])
  {
    hide Inv, RespondStep, Serve, Orders.OrdersFor, FoundIn, Noted, Resume;
    FineLookup(w, s, 0);
    ReplyFields(w, tid, Fine, 0);
    NotedKeepsFound(w.cells[s].sections, Exchange(FindOrder(x.ref), Serve(w, FindOrder(x.ref), Fine, 0).reply),
      OrdersOf(w, s)[0]);
  }

  // ----- A compensation reported as incomplete ------------------------------------------------------------------

  lemma TimedLostPost(w: World, body: OrderBody, key: Key, newId: nat)
    ensures Serve(w, PostOrder(body, key), TimedOutCall(false), newId).ecops == w.ecops
  {
  }

  /** From any reachable held session: a confirm whose POST never arrives and times out, and that then finds
      no order, releases the hold and compensates the session, and reports the compensation incomplete. */
  lemma CompensatedAsIncomplete(w: World, tid: Tid, s: Sid, op: Op, catalog: Catalog, newId: nat) returns (w': World)
    requires Reachable(w) && tid !in w.tasks && s in w.cells && w.cells[s].lock.None?
    requires w.cells[s].session.state == Held && w.cells[s].session.key.None? && !Expired(w.cells[s].session, w.clock)
    requires (op.Confirm? || op.PlaceOrder?) && NameFor(op, w.cells[s].session) !in {None, Some("")}
    requires forall o :: o in w.ecops.orders ==> o.id != newId
    ensures Reachable(w')
    ensures Ends(w', tid, s, w.cells[s].session.(state := Compensated, key := None), Raised(CompensationIncomplete))
    ensures OrdersOf(w', s) == [] && HoldOf(w', s) == None && w'.cells[s].unclean == w.cells[s].unclean
  {
    hide Reachable, Inv, SliceOk, StartStep, LockStep, EnterConfirm, CanRespond, Settle, Start, Orders.OrdersFor,
      KeyTaken, RespondStep, OrElse, Expired, Resume, Serve, OrderPayload, Stands, Orders.ValidBody, Ends, FoundIn;
    var x := w.cells[s].session;
    var w3 := ConfirmLooks(w, tid, s, op, catalog, newId);
    var name := NameFor(op, x).value;
    var w4 := TimesOut(w3, tid, s, x, AtPost(name, op.key), false, newId);
    PostThen(x, name, op.key);
    TimedLostPost(w3, OrderPayload(x, name), op.key, newId);
    assert OrdersOf(w4, s) == OrdersOf(w3, s) by {
      StandsSession(w4, tid, s, x, AtLookup(AfterTimeout(op.key), 0, MAX_RETRIES));
    }
    SettleFollows(w4, tid, newId, 8, s);
    SliceHolds(w, s);
    SliceFields(w, s);
    HeldHasHold(SliceOf(w, s));
    var w5 := EmptyLookups(w4, tid, s, x, AfterTimeout(op.key), 0, MAX_RETRIES, newId, 8);
    LostThen(x, op.key);
    ReleaseSettles(w5, tid, s, x, Compensating(Timeout), newId, 5);
    w' := Settle(w4, tid, newId, 8);
    EndsWithSession(w', tid, s);
    Agreement(w', s);
  }

  lemma StandsSession(w: World, tid: Tid, s: Sid, x: Session, pc: Pc)
    requires Stands(w, tid, s, x, pc)
    ensures s in w.cells && w.cells[s].session == x
  {
  }

  lemma LostThen(x: Session, key: Key)
    requires x.hold.Some? && x.state == Held
    ensures AfterLookup(AfterTimeout(key), x, Ok(None)) == Go(AtRelease(Compensating(Timeout), 0))
    ensures var e := AfterRelease(Compensating(Timeout), x, Ok(true));
            SavedOr(x, e) == x.(state := Compensated, key := None) && e.pc == Done(Raised(CompensationIncomplete))
  {
  }

  // ----- All four corners are real ---------------------------------------------------------------------------------

  /** Ids that nobody has used yet. */
  lemma UnusedIds(w: World) returns (tid: Tid, key: Key, order: OrderId)
    ensures tid !in w.tasks && !KeyTaken(w, key) && forall o :: o in w.ecops.orders ==> o.id != order
  {
    tid := Bound(w.tasks.Keys);
    key := Bound(w.ecops.idempotency.Keys);
    var ids := set o | o in w.ecops.orders :: o.id;
    order := Bound(ids);
    forall o | o in w.ecops.orders ensures o.id != order {
      assert o.id in ids;
    }
  }

  /** Abandoning a free held session strands an order exactly if the session had one before the call, so
      never one with no key pinned. */
  lemma AbandonStrandsOrder(w: World, tid: Tid, s: Sid, newId: nat)
    requires Reachable(w) && tid !in w.tasks && s in w.cells && w.cells[s].lock.None?
    requires w.cells[s].session.state == Held
    ensures var w' := FaultFree(w, tid, s, Abandon, map[], newId);
            && Reachable(w') && s in w'.cells && w'.cells[s].session == w.cells[s].session.(state := Abandoned)
            && (Stranded(w', s) <==> OrdersOf(w, s) != [])
            && w'.cells[s].unclean == w.cells[s].unclean
    ensures w.cells[s].session.key.None? ==> OrdersOf(w, s) == []
  {
    hide Reachable, FaultFree, SliceOk, Inv, Orders.OrdersFor;
    AbandonRecovers(w, tid, s, map[], newId);
    FaultFreeFollows(w, tid, s, Abandon, map[], newId);
    var w' := FaultFree(w, tid, s, Abandon, map[], newId);
    SliceHolds(w', s);
    AbandonedSlice(SliceOf(w', s));
    HoldOfSlice(w', s);
    if w.cells[s].session.key.None? {
      HeldUnpinnedHasNoOrder(w, s);
    }
  }

  lemma AbandonedSlice(s: Slice)
    requires SliceOk(s) && s.session.state == Abandoned
    ensures s.hold == None
  {
  }

  /** A session just created in an empty system with one unit of one product. */
  function FirstWorld(): World {
    World(map[0 := Cell(FreshSession(0, 0), map[], None, false, false, false, [])], map[], ZERO,
          Ihms(map[0 := 1], map[]), Orders.Ecops([], map[]), true, 0, {0}, {}, {}, map[0 := 1])
  }

  lemma FirstReachable()
    ensures Reachable(FirstWorld())
  {
    var w0 := World(map[], map[], ZERO, Ihms(map[0 := 1], map[]), Orders.Ecops([], map[]), true, 0, {}, {}, {},
      map[0 := 1]);
    assert Init(w0);
    assert IsRun([w0]);
    assert Reachable(w0) by { assert [w0][|[w0]| - 1] == w0; }
    ReachStep(w0, NewSession(0, 0));
    assert NewSessionStep(w0, 0, 0) == FirstWorld();
  }

  const CART := [Item(0, 1)]
  const SHOP: Catalog := map[0 := Product(0, "kettle", 0, 0, 30)]

  lemma OneLine()
    ensures CartLines(SHOP, CART) == Ok([Line(0, "kettle", 0, 0, 1, 30)])
  {
    assert CART[..0] == [];
    assert Quantity(CART, 0) == 1;
    assert FirstSeen(CART) == [0];
    var skus := [0];
    LinesForMeans(SHOP, CART, skus);
    assert forall i :: 0 <= i < |skus| ==> skus[i] == 0;
    assert LinesFor(SHOP, CART, skus).value == [LineFor(SHOP[0], 1)];
  }

  /** A reachable held session, free and with nothing behind it. */
  lemma HeldIsReachable() returns (w: World)
    ensures Reachable(w) && 0 in w.cells && w.cells[0].lock.None? && !w.cells[0].unclean
    ensures w.cells[0].session.state == Held && w.cells[0].session.key.None? && !Expired(w.cells[0].session, 0)
    ensures w.cells[0].session.customer == Some("Ann") && w.clock == 0
  {
    hide Reachable, FaultFree, CartLines, Covers;
    var w1 := FirstWorld();
    var op := PlaceHold(CART, "Ann");
    FirstReachable();
    OneLine();
    assert Covers(w1.ihms.inventory, HoldItems(CartLines(SHOP, CART).value)) by { OneIsCovered(); }
    HoldDecides(w1, 0, 0, op, SHOP, 0);
    FaultFreeFollows(w1, 0, 0, op, SHOP, 0);
    w := FaultFree(w1, 0, 0, op, SHOP, 0);
    FaultFreeClock(w1, 0, 0, op, SHOP, 0);
  }

  lemma OneIsCovered()
    ensures Covers(map[0 := 1], HoldItems([Line(0, "kettle", 0, 0, 1, 30)]))
  {
  }

  lemma {:induction false} SettleClock(w: World, tid: Tid, newId: nat, n: nat)
    ensures Settle(w, tid, newId, n).clock == w.clock
    decreases n
  {
    hide RespondStep, CanRespond, LockStep;
    if n > 0 && CanRespond(w, tid, Fine, newId) {
      DedupStays(w, tid, Fine, newId);
      SettleClock(RespondStep(w, tid, Fine, newId), tid, newId, n - 1);
    } else if n > 0 && Enabled(w, GetLock(tid)) {
      LockClock(w, tid);
      SettleClock(LockStep(w, tid), tid, newId, n - 1);
    }
  }

  lemma LockClock(w: World, tid: Tid)
    requires Enabled(w, GetLock(tid))
    ensures LockStep(w, tid).clock == w.clock
  {
    hide Enter, Tally;
  }

  lemma FaultFreeClock(w: World, tid: Tid, s: Sid, op: Op, catalog: Catalog, newId: nat)
    ensures FaultFree(w, tid, s, op, catalog, newId).clock == w.clock
  {
    hide Start, Settle;
    SettleClock(StartStep(w, tid, s, op, catalog), tid, newId, 16);
  }

  /** An order without its hold does occur, with every release acknowledged. */
  lemma OrderWithoutHoldHappens()
    ensures exists w, s :: Reachable(w) && s in w.cells && !w.cells[s].unclean
              && w.cells[s].session.state == Abandoned && Stranded(w, s)
  {
    hide Reachable, FaultFree, Expired, KeyTaken, Orders.OrdersFor, NameFor;
    var w := HeldIsReachable();
    var tid, key, order := UnusedIds(w);
    var op := PlaceOrder(CART, "Ann", key);
    PlaceOrderHasName(op, w.cells[0].session);
    var pinned := AmbiguousConfirm(w, tid, 0, op, SHOP, order);
    var later, _, _ := UnusedIds(pinned);
    AbandonStrandsOrder(pinned, later, 0, 0);
    var w' := FaultFree(pinned, later, 0, Abandon, map[], 0);
    assert Reachable(w') && 0 in w'.cells;
  }

  /** So does a confirmed session whose hold was released: an unacknowledged release loses the hold, and a
      later place_order, which does not look at it, confirms the session. */
  lemma ConfirmedWithoutHoldHappens()
    ensures exists w, s :: Reachable(w) && s in w.cells && w.cells[s].session.state == Confirmed && Stranded(w, s)
  {
    hide Reachable, FaultFree, Expired, KeyTaken, Orders.OrdersFor, NameFor, HoldStatus;
    var w := HeldIsReachable();
    var tid, key, _ := UnusedIds(w);
    var op := PlaceOrder(CART, "Ann", key);
    PlaceOrderHasName(op, w.cells[0].session);
    var lost := LosesHold(w, tid, 0, op, SHOP);
    var later, other, order := UnusedIds(lost);
    var again := PlaceOrder(CART, "Ann", other);
    PlaceOrderHasName(again, lost.cells[0].session);
    ConfirmDecides(lost, later, 0, again, SHOP, order);
    FaultFreeFollows(lost, later, 0, again, SHOP, order);
    var w' := FaultFree(lost, later, 0, again, SHOP, order);
    EndsWithSession(w', later, 0);
    Agreement(w', 0);
    assert Reachable(w') && 0 in w'.cells;
  }

  lemma ReconciledAreCounted(w: World)
    requires Reachable(w)
    ensures w.counters.confirmsReconciled == |InState(w, Reconciled)|
  {
    hide Init, Next;
    var ws :| IsRun(ws) && ws[|ws| - 1] == w;
    CountersAudit(ws, w);
  }

  /** So does a CONFIRMED session whose order a lookup found: it is not among the reconciled sessions that
      are counted. */
  lemma FoundButConfirmedHappens()
    ensures exists w, s, o: Order :: Reachable(w) && s in w.cells && w.cells[s].session.state == Confirmed
                              && w.cells[s].session.order == Some(o.id) && FoundIn(w.cells[s].sections, o)
                              && s !in InState(w, Reconciled)
                                   && w.counters.confirmsReconciled == |InState(w, Reconciled)|
  {
    hide Reachable, FaultFree, Expired, KeyTaken, Orders.OrdersFor, NameFor, FoundIn, Ends;
    var w := HeldIsReachable();
    var tid, key, order := UnusedIds(w);
    var op := PlaceOrder(CART, "Ann", key);
    PlaceOrderHasName(op, w.cells[0].session);
    var pinned := AmbiguousConfirm(w, tid, 0, op, SHOP, order);
    var o := OrdersOf(pinned, 0)[0];
    var later, _, _ := UnusedIds(pinned);
    var pending := FoundButPending(pinned, later, 0, key);
    var last, _, _ := UnusedIds(pending);
    PendingRecovers(pending, last, 0, GatedConfirm(None, key), map[], 0);
    FaultFreeFollows(pending, last, 0, GatedConfirm(None, key), map[], 0);
    var w' := FaultFree(pending, last, 0, GatedConfirm(None, key), map[], 0);
    EndsWithSession(w', last, 0);
    ReconciledAreCounted(w');
    assert Reachable(w') && 0 in w'.cells && FoundIn(w'.cells[0].sections, o);
  }

  /** And so does a compensated session whose caller was told that the compensation is incomplete. */
  lemma CompensatedAsIncompleteHappens()
    ensures exists w, s, t :: Reachable(w) && s in w.cells && w.cells[s].session.state == Compensated
                              && OrdersOf(w, s) == [] && HoldOf(w, s) == None && !w.cells[s].unclean
                              && t in w.tasks && w.tasks[t].sid == s
                                   && w.tasks[t].pc == Done(Raised(CompensationIncomplete))
  {
    hide Reachable, Expired, KeyTaken, Orders.OrdersFor, NameFor, HoldStatus;
    var w := HeldIsReachable();
    var tid, key, order := UnusedIds(w);
    var op := PlaceOrder(CART, "Ann", key);
    PlaceOrderHasName(op, w.cells[0].session);
    var w' := CompensatedAsIncomplete(w, tid, 0, op, SHOP, order);
    assert Reachable(w') && 0 in w'.cells && tid in w'.tasks;
  }
}
