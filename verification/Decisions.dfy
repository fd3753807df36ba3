/** What one fault-free place_hold, confirm or place_order decides, from every reachable state. */
module Decisions {
  import opened Models
  import opened Retries
  import opened Inventory
  import opened InventoryLaws
  import Orders
  import opened Cart
  import opened Metrics
  import opened Program
  import opened Slices
  import opened World
  import opened Reach
  import opened Lifecycle
  import opened Guarantees
  import opened Runs
  import opened Recovery

  // ----- A held session with no attempt behind it -----------------------------------------------------------------

  lemma HeldEntry(s: Slice, customer: Option<string>, key: Key, now: int)
    requires SliceOk(s) && s.at.None? && s.session.state == Held && s.session.key.None?
    ensures s.session.hold.Some? && key !in s.recs && s.orders == [] && s.session.lines != []
    ensures var name := OrElse(customer, s.session.customer);
            var e := EnterConfirm(customer, key, Some(s.session), None, now);
            if Expired(s.session, now) then e == Fail(HoldExpired)
            else if name.None? || name.value == "" then e == Fail(InvalidTransition)
            else e == Go(AtLookup(BeforePost(name.value, key), 0, 0))
  {
  }

  /** The key already stands for some order of a deduplicating service. */
  predicate KeyTaken(w: World, key: Key) {
    w.dedup && key in w.ecops.idempotency && Orders.ById(w.ecops.orders, w.ecops.idempotency[key]).Some?
  }

  lemma FinePost(w: World, body: OrderBody, key: Key, newId: nat)
    requires Orders.OrdersFor(w.ecops.orders, body.ref) == [] && Orders.ValidBody(body)
    ensures var served := Serve(w, PostOrder(body, key), Fine, newId);
            if KeyTaken(w, key) then served.reply == Failed(Upstream(409)) && served.ecops == w.ecops
            else served.reply == Placed(Order(newId, body))
  {
    hide Orders.CreateOrderAt, Orders.OrdersFor, Orders.ById, Orders.ValidBody;
    Orders.ConflictOnFreshRef(w.ecops, key, body, newId);
    Orders.CreateOutcome(w.ecops, key, body, newId);
  }

  lemma StandsValid(w: World, tid: Tid, s: Sid, x: Session, name: string, key: Key)
    requires Stands(w, tid, s, x, AtPost(name, key))
    ensures Orders.ValidBody(OrderPayload(x, name))
  {
    hide Inv, SliceOk, Orders.ValidBody;
    HolderIsCurrent(w, tid);
    ValidAtPost(SliceOf(w, s));
  }

  /** The one POST of a confirm. */
  lemma Posted(w: World, tid: Tid, s: Sid, x: Session, name: string, key: Key, newId: nat, n: nat)
    requires Stands(w, tid, s, x, AtPost(name, key)) && n > 0 && x.hold.Some?
    requires OrdersOf(w, s) == [] && forall o :: o in w.ecops.orders ==> o.id != newId
    ensures CanRespond(w, tid, Fine, newId)
    ensures var w' := RespondStep(w, tid, Fine, newId);
            && Settle(w, tid, newId, n) == Settle(w', tid, newId, n - 1)
            && if KeyTaken(w, key) then w'.ecops == w.ecops
                 && Stands(w', tid, s, x, AtLookup(AfterConflict(key), 0, MAX_RETRIES))
               else Stands(w', tid, s, x, AtFulfill(NewOrder(Order(newId, OrderPayload(x, name)), key, false), 0))
  {
    hide Inv, RespondStep, Serve, CanRespond, Orders.OrdersFor, KeyTaken, Orders.ById, OrderPayload, Orders.ValidBody;
    StandsValid(w, tid, s, x, name, key);
    CanAnswer(w, tid, s, x, AtPost(name, key), Fine, newId);
    assert OrderPayload(x, name).ref == x.ref by { PayloadRef(x, name); }
    FinePost(w, OrderPayload(x, name), key, newId);
    Replied(w, tid, s, x, AtPost(name, key), Fine, newId,
      Serve(w, PostOrder(OrderPayload(x, name), key), Fine, newId).reply);
  }

  lemma PayloadRef(x: Session, name: string)
    ensures OrderPayload(x, name).ref == x.ref
  {
  }

  lemma ConfirmedThen(x: Session, key: Key, order: Order)
    requires x.state == Held
    ensures var e := AfterFulfill(NewOrder(order, key, false), x, true);
            var y := x.(state := Confirmed, order := Some(order.id), key := Some(key));
            SavedOr(x, e) == y && e.pc == Done(Returned(y, false))
  {
  }

  lemma CompensatedThen(x: Session)
    requires x.state == Held
    ensures var e := AfterRelease(Compensating(Upstream(409)), x, Ok(true));
            SavedOr(x, e) == x.(state := Compensated, key := None) && e.pc == Done(Raised(Error.Gateway(Upstream(409))))
  {
  }

  /** What a held session is confirmed under: the customer handed to confirm. */
  function CustomerArg(op: Op, x: Session): Option<string>
    requires op.Confirm? || op.GatedConfirm? || op.PlaceOrder?
  {
    if op.PlaceOrder? then Some(OrderName(op.customer, x)) else op.customerArg
  }

  /** The name on the order, if there is one. */
  function NameFor(op: Op, x: Session): Option<string>
    requires op.Confirm? || op.GatedConfirm? || op.PlaceOrder?
  {
    OrElse(CustomerArg(op, x), x.customer)
  }

  lemma PlaceOrderHasName(op: Op, x: Session)
    requires op.PlaceOrder?
    ensures NameFor(op, x) == Some(OrderName(op.customer, x)) && NameFor(op, x) != Some("")
  {
  }

  /** A confirm from the grant of its lock on. */
  lemma ConfirmSettles(w: World, tid: Tid, s: Sid, x: Session, customer: Option<string>, key: Key, newId: nat, n: nat)
    requires Begins(w, tid, s, x, AtConfirmLock(customer, key)) && n > 8
    requires x.state == Held && x.key.None? && !Expired(x, w.clock) && OrElse(customer, x.customer) !in {None, Some("")}
    requires forall o :: o in w.ecops.orders ==> o.id != newId
    ensures Decided(w, Settle(w, tid, newId, n), tid, s, x, key, newId)
  {
    hide Inv, SliceOk, LockStep, EnterConfirm, CanRespond, Ends, Settle, Orders.OrdersFor, KeyTaken, RespondStep,
      OrElse, Expired, AfterFulfill, AfterRelease;
    BeginsSlice(w, tid, s, x, AtConfirmLock(customer, key));
    HeldEntry(SliceOf(w, s), customer, key, w.clock);
    var name := OrElse(customer, x.customer).value;
    LockGranted(w, tid, s, x, AtConfirmLock(customer, key), newId, n);
    var w2 := LockStep(w, tid);
    var w3 := EmptyLookups(w2, tid, s, x, BeforePost(name, key), 0, 0, newId, n - 1);
    Posted(w3, tid, s, x, name, key, newId, n - 2);
    var w4 := RespondStep(w3, tid, Fine, newId);
    SameKeyTaken(w, w3, key);
    if KeyTaken(w, key) {
      var w5 := EmptyLookups(w4, tid, s, x, AfterConflict(key), 0, MAX_RETRIES, newId, n - 3);
      CompensatedThen(x);
      ReleaseSettles(w5, tid, s, x, Compensating(Upstream(409)), newId, n - 6);
    } else {
      var order := Order(newId, OrderPayload(x, name));
      ConfirmedThen(x, key, order);
      FulfillSettles(w4, tid, s, x, NewOrder(order, key, false), newId, n - 3);
    }
  }

  lemma BeginsSlice(w: World, tid: Tid, s: Sid, x: Session, pc: Pc)
    requires Begins(w, tid, s, x, pc)
    ensures SliceOk(SliceOf(w, s)) && SliceOf(w, s).at.None? && SliceOf(w, s).session == x
    ensures SliceOf(w, s).recs == w.cells[s].recs
    ensures SliceOf(w, s).orders == OrdersOf(w, s)
  {
    hide SliceOk;
  }

  /** Confirmed with a new order, or, when the key already stands for another order, compensated. */
  ghost predicate Decided(w: World, w': World, tid: Tid, s: Sid, x: Session, key: Key, newId: OrderId) {
    if KeyTaken(w, key) then
      Ends(w', tid, s, x.(state := Compensated, key := None), Raised(Error.Gateway(Upstream(409))))
    else
      var y := x.(state := Confirmed, order := Some(newId), key := Some(key));
      Ends(w', tid, s, y, Returned(y, false))
  }

  /** One fault-free confirm or place_order of a held session decides it, and a session confirmed so has
      its hold exactly if it still had it before the call.  (The service's confirm looks first.) */
  lemma ConfirmDecides(w: World, tid: Tid, s: Sid, op: Op, catalog: Catalog, newId: nat)
    requires Reachable(w) && tid !in w.tasks && s in w.cells && w.cells[s].lock.None?
    requires w.cells[s].session.state == Held && w.cells[s].session.key.None? && !Expired(w.cells[s].session, w.clock)
    requires op.Confirm? || op.PlaceOrder? || (op.GatedConfirm? && HoldOf(w, s) != None)
    requires NameFor(op, w.cells[s].session) !in {None, Some("")}
    requires forall o :: o in w.ecops.orders ==> o.id != newId
    ensures var w' := FaultFree(w, tid, s, op, catalog, newId);
            && Decided(w, w', tid, s, w.cells[s].session, op.key, newId)
            && (!KeyTaken(w, op.key) ==> (HoldOf(w', s) == Some(Status.Fulfilled) <==> HoldOf(w, s) == Some(Active)))
  {
    hide Reachable, Inv, SliceOk, StartStep, LockStep, Ends, Settle, Start, Orders.OrdersFor, KeyTaken, RespondStep,
      Begins, HoldStatus, OrElse, Expired, SliceOf;
    SliceHolds(w, s);
    FreeSlot(w, s);
    SliceFields(w, s);
    var x, w' := w.cells[s].session, FaultFree(w, tid, s, op, catalog, newId);
    HeldEntry(SliceOf(w, s), None, op.key, w.clock);
    if op.GatedConfirm? {
      GateOpens(w, tid, s, op, catalog, newId, 16);
      var w2 := RespondStep(StartStep(w, tid, s, op, catalog), tid, Fine, newId);
      ConfirmSettles(w2, tid, s, x, CustomerArg(op, x), op.key, newId, 15);
      SameKeyTaken(w, w2, op.key);
    } else {
      HeldStart(w, s, op, catalog);
      Started(w, tid, s, op, catalog);
      var w1 := StartStep(w, tid, s, op, catalog);
      ConfirmSettles(w1, tid, s, x, CustomerArg(op, x), op.key, newId, 16);
      SameKeyTaken(w, w1, op.key);
    }
    FaultFreeFollows(w, tid, s, op, catalog, newId);
    if !KeyTaken(w, op.key) {
      EndsWithSession(w', tid, s);
      ConfirmedHold(w, w', s);
    }
  }

  lemma EndsWithSession(w: World, tid: Tid, s: Sid)
    ensures forall y, outcome :: Ends(w, tid, s, y, outcome) ==> s in w.cells && w.cells[s].session == y
  {
  }

  lemma ConfirmedHold(w: World, w': World, s: Sid)
    requires Reachable(w) && s in w.cells && w.cells[s].lock.None? && w.cells[s].session.state == Held
    requires Follows(w, w', s) && w'.cells[s].session.state == Confirmed
    ensures HoldOf(w', s) == Some(Status.Fulfilled) <==> HoldOf(w, s) == Some(Active)
  {
    hide Reachable, Inv, SliceOk;
    Agreement(w', s);
    SliceHolds(w, s);
    FreeSlot(w, s);
    FreeHeldHold(SliceOf(w, s));
  }

  /** A held session goes straight to its lock, but for the service's confirm. */
  lemma HeldStart(w: World, s: Sid, op: Op, catalog: Catalog)
    requires op.Confirm? || op.PlaceOrder?
    requires s in w.cells && w.cells[s].session.state == Held && op.key !in w.cells[s].recs
    ensures StartEffect(w, s, op, catalog) == Go(AtConfirmLock(CustomerArg(op, w.cells[s].session), op.key))
  {
  }

  // ----- The look at the hold before the service's confirm ---------------------------------------------------------

  lemma GateStarts(w: World, s: Sid, op: Op, catalog: Catalog)
    requires op.GatedConfirm? && s in w.cells
    requires var x := w.cells[s].session; x.state == Held && x.key.None? && x.hold.Some?
    ensures StartEffect(w, s, op, catalog) == Go(AtGate(w.cells[s].session.hold.value, op.customerArg, op.key))
  {
  }

  lemma FineGate(w: World, s: Sid, customer: Option<string>, key: Key, newId: nat)
    requires s in w.cells && w.cells[s].session.hold.Some? && HoldOf(w, s) != Some(Released)
    ensures var pc, x := AtGate(w.cells[s].session.hold.value, customer, key), w.cells[s].session;
            var served := Serve(w, CallOf(pc, x), Fine, newId);
            && served.ihms == w.ihms && served.ecops == w.ecops && Answers(CallOf(pc, x), served.reply)
            && Resume(pc, x, served.reply) ==
                 if HoldOf(w, s) == None then Fail(HoldExpired) else Go(AtConfirmLock(customer, key))
  {
  }

  /** The look at the hold, answered without a fault: nothing changes but the task. */
  lemma GateAnswered(w: World, tid: Tid, s: Sid, op: Op, catalog: Catalog, newId: nat, n: nat)
    requires Inv(w) && tid !in w.tasks && s in w.cells && op.GatedConfirm? && n > 0
    requires var x := w.cells[s].session; x.state == Held && x.key.None? && x.hold.Some?
    requires HoldOf(w, s) != Some(Released)
    ensures var w1 := StartStep(w, tid, s, op, catalog);
            && CanRespond(w1, tid, Fine, newId)
            && var w2 := RespondStep(w1, tid, Fine, newId);
               && Settle(w1, tid, newId, n) == Settle(w2, tid, newId, n - 1) && Inv(w2)
               && w2.cells == w.cells && w2.ihms == w.ihms && w2.ecops == w.ecops && w2.counters == w.counters
               && w2.clock == w.clock && w2.dedup == w.dedup
               && tid in w2.tasks && w2.tasks[tid].sid == s
               && w2.tasks[tid].pc == (if HoldOf(w, s) == None then Done(Raised(HoldExpired))
                    else AtConfirmLock(op.customerArg, op.key))
  {
    hide Inv, Start, Serve, Resume, RespondStep, LockStep;
    GateStarts(w, s, op, catalog);
    StartKeeps(w, tid, s, op, catalog);
    var w1 := StartStep(w, tid, s, op, catalog);
    FineGate(w, s, op.customerArg, op.key, newId);
    FineGate(w1, s, op.customerArg, op.key, newId);
    assert CanRespond(w1, tid, Fine, newId);
    RespondKeeps(w1, tid, Fine, newId);
    LocklessCells(w1, tid, Fine, newId);
    GateFields(w1, tid, newId);
  }

  lemma GateFields(w: World, tid: Tid, newId: nat)
    requires CanRespond(w, tid, Fine, newId) && w.tasks[tid].pc.AtGate?
    ensures var t, w' := w.tasks[tid], RespondStep(w, tid, Fine, newId);
            var served := Serve(w, CallOf(t.pc, t.local), Fine, newId);
            && Answers(CallOf(t.pc, t.local), served.reply)
            && w'.tasks == w.tasks[tid := Advance(t, Resume(t.pc, t.local, served.reply))]
            && w'.ihms == served.ihms && w'.ecops == served.ecops && w'.clock == w.clock && w'.dedup == w.dedup
            && w'.counters == Tally(w.counters, Resume(t.pc, t.local, served.reply).event)
  {
    hide Serve, Resume, Tally;
    ServeAnswers(w, TaskCall(w.tasks[tid]), Fine, newId);
  }

  lemma GateOpens(w: World, tid: Tid, s: Sid, op: Op, catalog: Catalog, newId: nat, n: nat)
    requires Reachable(w) && tid !in w.tasks && s in w.cells && w.cells[s].lock.None? && op.GatedConfirm? && n > 0
    requires var x := w.cells[s].session; x.state == Held && x.key.None? && HoldOf(w, s) != None
    ensures var w1 := StartStep(w, tid, s, op, catalog);
            && CanRespond(w1, tid, Fine, newId)
            && var w2 := RespondStep(w1, tid, Fine, newId);
               && Settle(w1, tid, newId, n) == Settle(w2, tid, newId, n - 1)
               && Begins(w2, tid, s, w.cells[s].session, AtConfirmLock(op.customerArg, op.key))
               && w2.ecops == w.ecops && w2.clock == w.clock && w2.dedup == w.dedup
  {
    hide Reachable, Inv, SliceOk, StartStep, RespondStep, CanRespond, Settle;
    SliceHolds(w, s);
    FreeSlot(w, s);
    FreeHeldHold(SliceOf(w, s));
    GateAnswered(w, tid, s, op, catalog, newId, n);
  }

  /** The service turns down a confirm of a held session whose hold is gone, and changes nothing. */
  lemma GoneHoldIsTurnedDown(w: World, tid: Tid, s: Sid, op: Op, catalog: Catalog, newId: nat)
    requires Reachable(w) && tid !in w.tasks && s in w.cells && op.GatedConfirm?
    requires w.cells[s].session.state == Held && w.cells[s].session.key.None? && HoldOf(w, s) == None
    ensures var w' := FaultFree(w, tid, s, op, catalog, newId);
            && tid in w'.tasks && w'.tasks[tid].sid == s && w'.tasks[tid].pc == Done(Raised(HoldExpired))
            && w'.cells == w.cells && w'.ihms == w.ihms && w'.ecops == w.ecops && w'.counters == w.counters
  {
    hide Reachable, Inv, SliceOk, StartStep, RespondStep, LockStep;
    SliceHolds(w, s);
    HeldHasHold(SliceOf(w, s));
    GateAnswered(w, tid, s, op, catalog, newId, 16);
    DoneStays(RespondStep(StartStep(w, tid, s, op, catalog), tid, Fine, newId), tid, newId, 15);
  }

  lemma HeldHasHold(s: Slice)
    requires SliceOk(s) && s.session.state == Held
    ensures s.session.hold.Some?
  {
  }

  lemma DoneStays(w: World, tid: Tid, newId: nat, n: nat)
    requires tid in w.tasks && w.tasks[tid].pc.Done?
    ensures Settle(w, tid, newId, n) == w
  {
    hide RespondStep, LockStep;
  }

  /** Once its hold has expired, a held session with no key pinned can no longer be confirmed: the call
      changes nothing.  (A pinned one still can, by PinnedRecovers.) */
  lemma ExpiredIsTurnedDown(w: World, tid: Tid, s: Sid, op: Op, catalog: Catalog, newId: nat)
    requires Reachable(w) && tid !in w.tasks && s in w.cells && w.cells[s].lock.None?
    requires w.cells[s].session.state == Held && w.cells[s].session.key.None? && Expired(w.cells[s].session, w.clock)
    requires op.Confirm? || op.PlaceOrder? || op.GatedConfirm?
    ensures var w' := FaultFree(w, tid, s, op, catalog, newId);
            Ends(w', tid, s, w.cells[s].session, Raised(HoldExpired)) && w'.ihms == w.ihms && w'.ecops == w.ecops
  {
    hide Reachable, Inv, SliceOk, StartStep, LockStep, Settle, Start, Orders.OrdersFor, RespondStep, Begins, OrElse,
      Expired, SliceOf, HoldStatus;
    SliceHolds(w, s);
    FreeSlot(w, s);
    SliceFields(w, s);
    HeldEntry(SliceOf(w, s), None, op.key, w.clock);
    if !op.GatedConfirm? {
      HeldStart(w, s, op, catalog);
      Started(w, tid, s, op, catalog);
      ExpiredSettles(StartStep(w, tid, s, op, catalog), tid, s, w.cells[s].session,
        CustomerArg(op, w.cells[s].session), op.key, newId, 16);
    } else if HoldOf(w, s) == None {
      GoneHoldIsTurnedDown(w, tid, s, op, catalog, newId);
    } else {
      GateOpens(w, tid, s, op, catalog, newId, 16);
      var w2 := RespondStep(StartStep(w, tid, s, op, catalog), tid, Fine, newId);
      GateStaysFree(w, tid, s, op, catalog, newId);
      ExpiredSettles(w2, tid, s, w.cells[s].session, op.customerArg, op.key, newId, 15);
    }
  }

  lemma GateStaysFree(w: World, tid: Tid, s: Sid, op: Op, catalog: Catalog, newId: nat)
    requires Reachable(w) && tid !in w.tasks && s in w.cells && w.cells[s].lock.None? && op.GatedConfirm?
    requires var x := w.cells[s].session; x.state == Held && x.key.None? && HoldOf(w, s) != None
    ensures var w1 := StartStep(w, tid, s, op, catalog);
            CanRespond(w1, tid, Fine, newId) && RespondStep(w1, tid, Fine, newId).ihms == w.ihms
  {
    hide Reachable, Inv, SliceOk, StartStep, RespondStep, CanRespond, Settle;
    SliceHolds(w, s);
    FreeSlot(w, s);
    FreeHeldHold(SliceOf(w, s));
    GateAnswered(w, tid, s, op, catalog, newId, 16);
  }

  lemma ExpiredSettles(w: World, tid: Tid, s: Sid, x: Session, customer: Option<string>, key: Key, newId: nat, n: nat)
    requires Begins(w, tid, s, x, AtConfirmLock(customer, key)) && n > 0
    requires x.state == Held && x.key.None? && Expired(x, w.clock)
    ensures var w' := Settle(w, tid, newId, n);
            Ends(w', tid, s, x, Raised(HoldExpired)) && w'.ihms == w.ihms && w'.ecops == w.ecops
  {
    hide Inv, SliceOk, LockStep, EnterConfirm, Orders.OrdersFor, OrElse, Expired, Settle;
    BeginsSlice(w, tid, s, x, AtConfirmLock(customer, key));
    HeldEntry(SliceOf(w, s), customer, key, w.clock);
    LockGranted(w, tid, s, x, AtConfirmLock(customer, key), newId, n);
    SettledStays(LockStep(w, tid), tid, s, x, Raised(HoldExpired), newId, n - 1);
  }

  lemma FreeSlot(w: World, s: Sid)
    requires s in w.cells && w.cells[s].lock.None?
    ensures SliceOf(w, s).at.None? && SliceOf(w, s).recs == w.cells[s].recs
  {
  }

  lemma SameKeyTaken(w: World, w': World, key: Key)
    requires w'.ecops == w.ecops && w'.dedup == w.dedup
    ensures KeyTaken(w', key) == KeyTaken(w, key)
  {
  }

  // ----- A new session ---------------------------------------------------------------------------

  /** How place_hold and place_order begin on a new session: the name held under and what comes after. */
  function HoldName(op: Op, x: Session): string
    requires op.PlaceHold? || op.PlaceOrder?
  {
    if op.PlaceOrder? then OrderName(op.customer, x) else op.customer
  }

  function HoldThen(op: Op, x: Session): AfterHold
    requires op.PlaceHold? || op.PlaceOrder?
  {
    if op.PlaceOrder? then ThenConfirm(OrderName(op.customer, x), op.key) else Return
  }

  lemma HoldStart(w: World, s: Sid, op: Op, catalog: Catalog)
    requires s in w.cells && w.cells[s].session.state == Created && w.cells[s].recs == map[]
    requires (op.PlaceHold? || op.PlaceOrder?) && op.items != [] && CartLines(catalog, op.items).Ok?
    ensures var x, lines := w.cells[s].session, CartLines(catalog, op.items).value;
            && GoodLines(lines)
            && StartEffect(w, s, op, catalog) == Go(AtHoldLock(lines, HoldName(op, x), HoldThen(op, x)))
            && EnterHold(lines, HoldName(op, x), HoldThen(op, x), Some(x))
                 == Go(AtStock(lines, HoldName(op, x), HoldThen(op, x)))
  {
    hide CartLines, GoodLines;
    CartRequest(catalog, op.items);
  }

  lemma FineStock(w: World, x: Session, lines: seq<Line>, customer: string, next: AfterHold, newId: nat)
    ensures Serve(w, GetInventory, Fine, newId).reply == Stock(w.ihms.inventory)
    ensures Serve(w, GetInventory, Fine, newId).ihms == w.ihms && Serve(w, GetInventory, Fine, newId).ecops == w.ecops
    ensures Resume(AtStock(lines, customer, next), x, Stock(w.ihms.inventory)) ==
              if Covers(w.ihms.inventory, HoldItems(lines)) then Go(AtCreateHold(lines, customer, next))
                else Fail(InsufficientStock)
  {
    FirstShortMeans(lines, w.ihms.inventory);
  }

  /** The session once its hold is placed, and where the operation then goes. */
  function HeldWith(x: Session, lines: seq<Line>, customer: string, hold: HoldId, now: int): Session {
    x.(state := Held, hold := Some(hold), expires := Some(now + HOLD_TTL), customer := Some(customer), lines := lines)
  }

  function AfterHeld(next: AfterHold, y: Session): Pc {
    match next
    case Return => Done(Returned(y, false))
    case ThenConfirm(customer, key) => AtConfirmLock(Some(customer), key)
  }

  lemma FineCreate(w: World, x: Session, lines: seq<Line>, customer: string, next: AfterHold, newId: nat)
    requires GoodLines(lines) && Covers(w.ihms.inventory, HoldItems(lines))
    ensures Serve(w, CreateHold(HoldItems(lines)), Fine, newId).reply == HoldMade(newId, w.clock + HOLD_TTL)
    ensures Serve(w, CreateHold(HoldItems(lines)), Fine, newId).ecops == w.ecops
    ensures var e := Resume(AtCreateHold(lines, customer, next), x, HoldMade(newId, w.clock + HOLD_TTL));
            var y := HeldWith(x, lines, customer, newId, w.clock);
            SavedOr(x, e) == y && e.pc == AfterHeld(next, y)
  {
    CreatePositive(w.ihms, HoldItems(lines), newId, w.clock);
  }

  lemma UpstreamStays(w: World, tid: Tid, s: Sid, x: Session, pc: Pc, newId: nat)
    requires Stands(w, tid, s, x, pc) && CanRespond(w, tid, Fine, newId) && pc.AtStock?
    ensures var w' := RespondStep(w, tid, Fine, newId);
            w'.ihms == w.ihms && w'.clock == w.clock && w'.issued == w.issued
  {
    hide Resume, Tally, Noted, ReleaseFailed, SliceOk;
    Belongs(w);
  }

  /** A hold section from the stock check on: turned down, or on to where the operation goes. */
  lemma HoldSettles(w: World, tid: Tid, s: Sid, x: Session, lines: seq<Line>, customer: string, next: AfterHold,
                    newId: nat, n: nat)
    returns (w': World)
    requires Stands(w, tid, s, x, AtStock(lines, customer, next)) && n > 1 && newId !in w.issued && GoodLines(lines)
    ensures w'.ecops == w.ecops && w'.clock == w.clock && w'.dedup == w.dedup
    ensures if Covers(w.ihms.inventory, HoldItems(lines)) then
              var y := HeldWith(x, lines, customer, newId, w.clock);
              Comes(w', tid, s, y, AfterHeld(next, y)) && Settle(w, tid, newId, n) == Settle(w', tid, newId, n - 2)
            else
              Ends(w', tid, s, x, Raised(InsufficientStock)) && Settle(w, tid, newId, n) == w'
  {
    hide Inv, CanRespond, Ends, RespondStep, Resume, GoodLines, Covers, Serve, HoldItems, Stands, Begins;
    var pc := AtStock(lines, customer, next);
    CanAnswer(w, tid, s, x, pc, Fine, newId);
    FineStock(w, x, lines, customer, next, newId);
    Replied(w, tid, s, x, pc, Fine, newId, Stock(w.ihms.inventory));
    UpstreamStays(w, tid, s, x, pc, newId);
    w' := RespondStep(w, tid, Fine, newId);
    if Covers(w.ihms.inventory, HoldItems(lines)) {
      var w1 := w';
      var pc' := AtCreateHold(lines, customer, next);
      CanAnswer(w1, tid, s, x, pc', Fine, newId);
      FineCreate(w1, x, lines, customer, next, newId);
      Replied(w1, tid, s, x, pc', Fine, newId, HoldMade(newId, w.clock + HOLD_TTL));
      w' := RespondStep(w1, tid, Fine, newId);
    } else {
      SettledStays(w', tid, s, x, Raised(InsufficientStock), newId, n - 1);
    }
  }

  /** place_hold and place_order on a new session, up to where the hold is placed or turned down. */
  lemma HoldBegins(w: World, tid: Tid, s: Sid, op: Op, catalog: Catalog, newId: nat) returns (w': World)
    requires Reachable(w) && tid !in w.tasks && s in w.cells && w.cells[s].lock.None?
    requires w.cells[s].session.state == Created && newId !in w.issued
    requires (op.PlaceHold? || op.PlaceOrder?) && op.items != [] && CartLines(catalog, op.items).Ok?
    ensures w'.ecops == w.ecops && w'.clock == w.clock && w'.dedup == w.dedup
    ensures var x, lines := w.cells[s].session, CartLines(catalog, op.items).value;
            if Covers(w.ihms.inventory, HoldItems(lines)) then
              var y := HeldWith(x, lines, HoldName(op, x), newId, w.clock);
              && Comes(w', tid, s, y, AfterHeld(HoldThen(op, x), y))
              && FaultFree(w, tid, s, op, catalog, newId) == Settle(w', tid, newId, 13)
            else
              Ends(w', tid, s, x, Raised(InsufficientStock)) && FaultFree(w, tid, s, op, catalog, newId) == w'
  {
    hide Reachable, Inv, SliceOk, StartStep, LockStep, EnterHold, CanRespond, Ends, Start, Orders.OrdersFor,
      RespondStep, Resume, CartLines, GoodLines, Covers, Serve, HoldItems, Settle, Begins, Stands, OrderName,
        HeldWith, AfterHeld;
    SliceHolds(w, s);
    FreeSlot(w, s);
    SliceFields(w, s);
    NewHasNoRecord(SliceOf(w, s));
    var x, lines := w.cells[s].session, CartLines(catalog, op.items).value;
    HoldStart(w, s, op, catalog);
    Started(w, tid, s, op, catalog);
    var w1 := StartStep(w, tid, s, op, catalog);
    LockGranted(w1, tid, s, x, AtHoldLock(lines, HoldName(op, x), HoldThen(op, x)), newId, 16);
    var w2 := LockStep(w1, tid);
    w' := HoldSettles(w2, tid, s, x, lines, HoldName(op, x), HoldThen(op, x), newId, 15);
  }

  lemma NewHasNoRecord(s: Slice)
    requires SliceOk(s) && s.session.state == Created
    ensures s.recs == map[] && s.session.key.None? && s.session.hold.None? && !s.lost
  {
  }

  /** One fault-free place_hold of an acceptable cart holds it when every line is in stock, and otherwise
      is turned down and changes nothing. */
  lemma HoldDecides(w: World, tid: Tid, s: Sid, op: Op, catalog: Catalog, newId: nat)
    requires Reachable(w) && tid !in w.tasks && s in w.cells && w.cells[s].lock.None?
    requires w.cells[s].session.state == Created && newId !in w.issued
    requires op.PlaceHold? && op.items != [] && CartLines(catalog, op.items).Ok?
    ensures var x, lines := w.cells[s].session, CartLines(catalog, op.items).value;
            if Covers(w.ihms.inventory, HoldItems(lines)) then
              var y := HeldWith(x, lines, op.customer, newId, w.clock);
              Ends(FaultFree(w, tid, s, op, catalog, newId), tid, s, y, Returned(y, false))
            else
              Ends(FaultFree(w, tid, s, op, catalog, newId), tid, s, x, Raised(InsufficientStock))
  {
    hide Reachable, Ends, FaultFree, CartLines, Covers, HeldWith, Stands, Begins;
    var x, lines := w.cells[s].session, CartLines(catalog, op.items).value;
    var w' := HoldBegins(w, tid, s, op, catalog, newId);
    if Covers(w.ihms.inventory, HoldItems(lines)) {
      var y := HeldWith(x, lines, op.customer, newId, w.clock);
      SettledStays(w', tid, s, y, Returned(y, false), newId, 13);
    }
  }

  /** One fault-free place_order of an acceptable cart is the whole checkout: confirmed with a new order
      and its hold fulfilled; turned down unchanged when a line is not in stock; compensated when its key
      already stands for another order. */
  lemma OrderDecides(w: World, tid: Tid, s: Sid, op: Op, catalog: Catalog, newId: nat)
    requires Reachable(w) && tid !in w.tasks && s in w.cells && w.cells[s].lock.None?
    requires w.cells[s].session.state == Created && newId !in w.issued
    requires forall o :: o in w.ecops.orders ==> o.id != newId
    requires op.PlaceOrder? && op.items != [] && CartLines(catalog, op.items).Ok?
    ensures var x, lines, w' := w.cells[s].session, CartLines(catalog, op.items).value,
              FaultFree(w, tid, s, op, catalog, newId);
            if Covers(w.ihms.inventory, HoldItems(lines)) then
              && Decided(w, w', tid, s, HeldWith(x, lines, OrderName(op.customer, x), newId, w.clock), op.key, newId)
              && (!KeyTaken(w, op.key) ==> HoldOf(w', s) == Some(Status.Fulfilled))
            else
              Ends(w', tid, s, x, Raised(InsufficientStock))
  {
    hide Reachable, Inv, SliceOk, Ends, FaultFree, CartLines, Covers, Stands, Begins, KeyTaken, OrderName, SliceOf,
      Settle;
    var x, lines, w' := w.cells[s].session, CartLines(catalog, op.items).value,
      FaultFree(w, tid, s, op, catalog, newId);
    SliceHolds(w, s);
    SliceFields(w, s);
    NewHasNoRecord(SliceOf(w, s));
    SliceMarks(w, s);
    var w1 := HoldBegins(w, tid, s, op, catalog, newId);
    if Covers(w.ihms.inventory, HoldItems(lines)) {
      var y := HeldWith(x, lines, OrderName(op.customer, x), newId, w.clock);
      ConfirmSettles(w1, tid, s, y, Some(OrderName(op.customer, x)), op.key, newId, 13);
      SameKeyTaken(w, w1, op.key);
      FaultFreeFollows(w, tid, s, op, catalog, newId);
      EndsWithSession(w', tid, s);
      if !KeyTaken(w, op.key) {
        Agreement(w', s);
      }
    }
  }

  lemma SliceMarks(w: World, s: Sid)
    requires s in w.cells
    ensures SliceOf(w, s).lost == w.cells[s].lost && SliceOf(w, s).unclean == w.cells[s].unclean
  {
  }
}
