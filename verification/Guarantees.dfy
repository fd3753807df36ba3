/** What holds in every reachable state: agreement between the local stores, the order service and
the inventory service. */
module Guarantees {
  import opened Models
  import opened Inventory
  import Orders
  import opened Cart
  import opened Metrics
  import opened Program
  import opened Slices
  import opened World
  import opened Reach

  /** The stored orders that carry a session's correlation id. */
  function OrdersOf(w: World, s: Sid): seq<Order>
    requires s in w.cells
  {
    Orders.OrdersFor(w.ecops.orders, w.cells[s].session.ref)
  }

  function HoldOf(w: World, s: Sid): Option<Status>
    requires s in w.cells
  {
    HoldStatus(w.ihms, w.cells[s].session.hold)
  }

  lemma SliceHolds(w: World, s: Sid)
    requires Reachable(w) && s in w.cells
    ensures Inv(w) && SliceOk(SliceOf(w, s))
  {
    hide Reachable, SliceOk, SliceOf;
    ReachableOk(w);
  }

  // ----- Agreement ---------------------------------------------------------------------------------

  /** A confirmed session has exactly one order, the one it names, and its hold is fulfilled unless an
      unacknowledged release lost it; a pending one has its order and has not released its hold; a
      compensated one has no order and no hold; an abandoned one has no hold.  All of it at every step of
      every run. */
  lemma Agreement(w: World, s: Sid)
    requires Reachable(w) && s in w.cells
    ensures var c := w.cells[s];
            var x, orders, hold := c.session, OrdersOf(w, s), HoldOf(w, s);
            && (x.state in {Confirmed, Reconciled} ==>
                  |orders| == 1 && x.order == Some(orders[0].id) && x.hold.Some?
                  && (hold == Some(Status.Fulfilled) <==> !c.lost) && (hold == None <==> c.lost))
            && (x.state == FulfillPending ==>
                  |orders| == 1 && x.order == Some(orders[0].id) && x.hold.Some? && (hold == None <==> c.lost))
            && (x.state == Compensated ==> orders == [] && x.hold.Some? && hold == None)
            && (x.state == Abandoned ==> hold == None)
            && (c.lost ==> c.unclean)
  {
    hide Reachable, Inv;
    SliceHolds(w, s);
  }

  /** In a run whose releases were all acknowledged, a session with an order has its hold, with one
      exception: it was abandoned while its key was pinned, or is being abandoned so. */
  lemma OrderWithoutHold(w: World, s: Sid)
    requires Reachable(w) && s in w.cells && !w.cells[s].unclean
    requires OrdersOf(w, s) != [] && HoldOf(w, s) == None
    ensures var x, at := w.cells[s].session, HolderPc(w, s);
            && x.key.Some? && x.hold.Some? && w.cells[s].pinned
            && (x.state == Abandoned || (x.state == Held && at.Some? && at.value.AtRelease?
                 && at.value.release == Abandoning))
  {
    hide Reachable, Inv;
    SliceHolds(w, s);
  }

  /** While no operation is at it, a session with an order is without its hold exactly if it was abandoned
      or an unacknowledged release lost the hold; with every release acknowledged, exactly if it was
      abandoned. */
  lemma OrderWithoutHoldExactly(w: World, s: Sid)
    requires Reachable(w) && s in w.cells && w.cells[s].lock.None? && OrdersOf(w, s) != []
    ensures HoldOf(w, s) == None <==> w.cells[s].session.state == Abandoned || w.cells[s].lost
    ensures !w.cells[s].unclean ==> (HoldOf(w, s) == None <==> w.cells[s].session.state == Abandoned)
  {
    hide Reachable, Inv;
    SliceHolds(w, s);
  }

  /** No path inside confirm releases a hold whose order exists. */
  lemma CompensationHasNoOrder(w: World, tid: Tid)
    requires Reachable(w) && tid in w.tasks && w.tasks[tid].pc.AtRelease? && w.tasks[tid].pc.release.Compensating?
    ensures w.tasks[tid].sid in w.cells && OrdersOf(w, w.tasks[tid].sid) == []
  {
    hide Reachable, Inv;
    ReachableOk(w);
    HolderIsCurrent(w, tid);
  }

  /** A free, held, unpinned session has no order. */
  lemma HeldUnpinnedHasNoOrder(w: World, s: Sid)
    requires Reachable(w) && s in w.cells
    requires w.cells[s].lock.None? && w.cells[s].session.state == Held && w.cells[s].session.key.None?
    ensures OrdersOf(w, s) == []
  {
    hide Reachable, Inv;
    SliceHolds(w, s);
  }

  lemma FreeHeldHold(s: Slice)
    requires SliceOk(s) && s.at.None? && s.session.state == Held
    ensures s.hold == if s.lost then None else Some(Active)
  {
  }

  // ----- At most one order per session ------------------------------------------------------------

  lemma {:induction false} TwoOrders(orders: seq<Order>, ref: Ref, i: nat, j: nat)
    requires i < j < |orders| && orders[i].body.ref == ref && orders[j].body.ref == ref
    ensures |Orders.OrdersFor(orders, ref)| >= 2
  {
    var n := |orders| - 1;
    if j < n {
      TwoOrders(orders[..n], ref, i, j);
    } else {
      Orders.OrdersForMeans(orders[..n], ref);
      assert orders[..n][i] in orders[..n];
    }
  }

  /** Whatever is called, in whatever interleaving and with whatever keys, and even if the order
      service stores every POST: no two orders carry the same correlation id, and an order is posted
      only for an unpinned session that has none. */
  lemma AtMostOneOrder(w: World)
    requires Reachable(w)
    ensures Orders.DistinctRefs(w.ecops.orders)
    ensures forall s :: s in w.cells ==> |OrdersOf(w, s)| <= 1
    ensures forall t :: t in w.tasks && w.tasks[t].pc.AtPost? ==>
              var s := w.tasks[t].sid; s in w.cells && OrdersOf(w, s) == [] && w.cells[s].session.key.None?
  {
    hide Reachable, Inv, SliceOk, Orders.OrdersFor;
    ReachableOk(w);
    forall s | s in w.cells ensures |OrdersOf(w, s)| <= 1 {
      OneOrder(w, s);
    }
    forall t | t in w.tasks && w.tasks[t].pc.AtPost?
      ensures var s := w.tasks[t].sid; s in w.cells && OrdersOf(w, s) == [] && w.cells[s].session.key.None?
    {
      HolderIsCurrent(w, t);
      NoOrderAtPost(SliceOf(w, w.tasks[t].sid));
      SliceFields(w, w.tasks[t].sid);
    }
    forall i, j | 0 <= i < j < |w.ecops.orders| ensures w.ecops.orders[i].body.ref != w.ecops.orders[j].body.ref {
      assert w.ecops.orders[i] in w.ecops.orders;
      var s := OwnerOf(w, w.ecops.orders[i]);
      OneOrder(w, s);
      if w.ecops.orders[j].body.ref == w.ecops.orders[i].body.ref {
        TwoOrders(w.ecops.orders, w.ecops.orders[i].body.ref, i, j);
      }
    }
  }

  lemma OneOrder(w: World, s: Sid)
    requires Inv(w) && s in w.cells
    ensures |OrdersOf(w, s)| <= 1
  {
    assert SliceOk(SliceOf(w, s));
  }

  lemma NoOrderAtPost(s: Slice)
    requires SliceOk(s) && s.at.Some? && s.at.value.AtPost?
    ensures s.orders == [] && s.session.key.None?
  {
  }

  lemma OrderPlaced(s: Slice)
    requires SliceOk(s) && s.orders != []
    ensures var x := s.session;
            || (x.state in {FulfillPending, Confirmed, Reconciled} && x.order == Some(s.orders[0].id))
            || (x.state in {Held, Abandoned} && x.key.Some? && s.pinned)
            || (x.state == Held && MayHaveOrder(s.at))
  {
  }

  /** No order is lost: every stored order is the one order of a session, which names it, or has its
      key pinned, or is held by an operation that is about to record it. */
  lemma NoOrderIsLost(w: World, o: Order) returns (s: Sid)
    requires Reachable(w) && o in w.ecops.orders
    ensures s in w.cells && w.cells[s].session.ref == o.body.ref && OrdersOf(w, s) == [o]
    ensures var x := w.cells[s].session;
            || (x.state in {FulfillPending, Confirmed, Reconciled} && x.order == Some(o.id))
            || (x.state in {Held, Abandoned} && x.key.Some? && w.cells[s].pinned)
            || (x.state == Held && MayHaveOrder(HolderPc(w, s)))
  {
    hide Reachable, Inv, SliceOk, Orders.OrdersFor;
    s := OwnerOf(w, o);
    AtMostOneOrder(w);
    Orders.OrdersForMeans(w.ecops.orders, o.body.ref);
    assert o in OrdersOf(w, s);
    SliceHolds(w, s);
    OrderPlaced(SliceOf(w, s));
  }

  lemma OwnerOf(w: World, o: Order) returns (s: Sid)
    requires Reachable(w) && o in w.ecops.orders
    ensures s in w.cells && w.cells[s].session.ref == o.body.ref
  {
    hide Reachable, SlicesOk, Locked, HoldsBelong;
    ReachableOk(w);
    s :| s in w.cells && w.cells[s].session.ref == o.body.ref;
  }

  /** Orders are never dropped, so "no two orders now" is "no second order ever". */
  lemma OrdersOnlyGrow(w: World, w': World)
    requires Next(w, w')
    ensures w.ecops.orders <= w'.ecops.orders
  {
    var step :| Enabled(w, step) && w' == Take(w, step);
    if step.Respond? {
      ServeGrows(w, TaskCall(w.tasks[step.tid]), step.fault, step.newId);
      RespondKeepsServed(w, step.tid, step.fault, step.newId);
    } else {
      hide Start, Enter, Tally;
    }
  }

  lemma ServeGrows(w: World, call: Call, fault: Fault, newId: nat)
    ensures w.ecops.orders <= Serve(w, call, fault, newId).ecops.orders
  {
    hide ServeIhms, Orders.FirstFor;
  }

  lemma RespondKeepsServed(w: World, tid: Tid, fault: Fault, newId: nat)
    requires CanRespond(w, tid, fault, newId)
    ensures RespondStep(w, tid, fault, newId).ecops == Serve(w, TaskCall(w.tasks[tid]), fault, newId).ecops
  {
    hide Serve, Resume, Tally, Noted, ReleaseFailed;
  }

  /** Sessions never share an order. */
  lemma OrderIdsAreOwn(w: World, s: Sid, t: Sid)
    requires Reachable(w) && s in w.cells && t in w.cells && s != t && w.cells[s].session.order.Some?
    ensures w.cells[s].session.order != w.cells[t].session.order
  {
    hide Reachable, Locked, HoldsBelong, HoldTracked, Cached, GoodLines, Orders.OrdersFor;
    ReachableOk(w);
    assert SliceOk(SliceOf(w, s)) && SliceOk(SliceOf(w, t));
    if w.cells[t].session.order.Some? {
      Orders.OrdersForMeans(w.ecops.orders, w.cells[s].session.ref);
      Orders.OrdersForMeans(w.ecops.orders, w.cells[t].session.ref);
      var a, b := OrdersOf(w, s)[0], OrdersOf(w, t)[0];
      assert a in OrdersOf(w, s) && b in OrdersOf(w, t);
      assert a.body.ref != b.body.ref;
    }
  }

  /** The order of a session carries the lines frozen when its hold was placed, line by line. */
  lemma OrderCarriesLines(w: World, s: Sid)
    requires Reachable(w) && s in w.cells && OrdersOf(w, s) != []
    ensures var items, lines := OrdersOf(w, s)[0].body.items, w.cells[s].session.lines;
            && |items| == |lines|
            && forall i :: 0 <= i < |lines| ==>
                 items[i].code == lines[i].code && items[i].quantity == lines[i].quantity
                   && items[i].price == lines[i].price
    ensures OrdersOf(w, s)[0].body.ref == w.cells[s].session.ref && GoodLines(w.cells[s].session.lines)
  {
    hide Reachable, Inv;
    SliceHolds(w, s);
  }

  lemma ValidAtPost(s: Slice)
    requires SliceOk(s) && s.at.Some? && s.at.value.AtPost?
    ensures Orders.ValidBody(OrderPayload(s.session, s.at.value.customer))
  {
    var lines := s.session.lines;
    assert GoodLines(lines);
    forall i | 0 <= i < |lines| ensures lines[i].quantity > 0 {
      assert HoldItems(lines)[i].quantity > 0;
    }
  }

  /** Every order that is posted is one the service accepts as a request: it names a customer and has
      at least one item, of positive quantity and at no negative price. */
  lemma PostsAreValid(w: World, tid: Tid)
    requires Reachable(w) && tid in w.tasks && w.tasks[tid].pc.AtPost?
    ensures Orders.ValidBody(OrderPayload(w.tasks[tid].local, w.tasks[tid].pc.customer))
  {
    hide Reachable, Inv, SliceOk;
    ReachableOk(w);
    HolderIsCurrent(w, tid);
    ValidAtPost(SliceOf(w, w.tasks[tid].sid));
  }

  /** With a deduplicating order service, the only 409 an order can meet is a key that already stands
      for another session's order. */
  lemma ConflictIsKeyReuse(w: World, tid: Tid, newId: OrderId)
    requires Reachable(w) && w.dedup && tid in w.tasks && w.tasks[tid].pc.AtPost?
    ensures var t := w.tasks[tid];
            var body := OrderPayload(t.local, t.pc.customer);
            var answer := Orders.CreateOrderAt(w.ecops, Some(t.pc.key), body, newId, Orders.Normal).1;
            if t.pc.key in w.ecops.idempotency && Orders.ById(w.ecops.orders, w.ecops.idempotency[t.pc.key]).Some? then
              var o := Orders.ById(w.ecops.orders, w.ecops.idempotency[t.pc.key]).value;
              answer == Orders.Answer.Rejected(409) && o in w.ecops.orders && o.body.ref != t.local.ref
            else
              answer == Orders.Stored(201, Order(newId, body))
  {
    hide Reachable, Inv, SliceOk, Orders.CreateOrderAt, Orders.ById, Orders.OrdersFor, Orders.ValidBody;
    var t := w.tasks[tid];
    AtMostOneOrder(w);
    ReachableOk(w);
    HolderIsCurrent(w, tid);
    PostsAreValid(w, tid);
    Orders.ConflictOnFreshRef(w.ecops, t.pc.key, OrderPayload(t.local, t.pc.customer), newId);
  }

  lemma HolderIsCurrent(w: World, tid: Tid)
    requires Inv(w) && tid in w.tasks && HoldsLock(w.tasks[tid].pc)
    ensures var t := w.tasks[tid];
            && t.sid in w.cells && t.local == w.cells[t.sid].session && HolderPc(w, t.sid) == Some(t.pc)
            && SliceOk(SliceOf(w, t.sid)) && SliceOf(w, t.sid).at == Some(t.pc)
  {
    hide SliceOk;
  }

  // ----- The idempotency cache -----------------------------------------------------------------------

  /** A cached record is the session's own: same key, state, order, hold and expiry; and a session has
      at most one. */
  lemma CacheAgrees(w: World, s: Sid, key: Key)
    requires Reachable(w) && s in w.cells && key in w.cells[s].recs
    ensures var x, r := w.cells[s].session, w.cells[s].recs[key];
            && x.key == Some(key) && x.state in {FulfillPending, Confirmed, Reconciled}
            && r.body.state == x.state && r.order == x.order && r.body.order == x.order
            && r.body == Body(s, x.ref, x.state, x.hold, x.order, x.expires) && r.statusCode == 200
    ensures w.cells[s].recs.Keys == {key}
  {
    hide Reachable, SlicesOk, Locked, HoldsBelong;
    SliceHolds(w, s);
  }

  lemma CachedStart(op: Op, catalog: Catalog, x: Session, r: Record)
    requires op.PlaceOrder? && Repaired(x, r, {Created, Held, FulfillPending}) == Some(x)
    ensures Start(op, catalog, Some(x), Some(r)) == Effect(Done(Returned(x, true)), Some(x), None, None)
  {
    hide Repaired, StartHold;
  }

  /** The lock-free replay of place_order calls nobody and changes nothing but its own task. */
  lemma ReplayIsNoOp(w: World, tid: Tid, s: Sid, op: Op, catalog: Catalog)
    requires Reachable(w) && tid !in w.tasks && s in w.cells && op.PlaceOrder? && op.key in w.cells[s].recs
    ensures var w' := StartStep(w, tid, s, op, catalog);
            && w' == w.(tasks := w'.tasks)
            && w'.tasks == w.tasks[tid := Task(s, w.cells[s].session, Done(Returned(w.cells[s].session, true)))]
  {
    hide Reachable, Start, Repaired, Inv, SliceOk;
    SliceHolds(w, s);
    StartKeeps(w, tid, s, op, catalog);
    RepairIsIdle(SliceOf(w, s), op.key, {Created, Held, FulfillPending});
    CachedStart(op, catalog, w.cells[s].session, w.cells[s].recs[op.key]);
    assert StartEffect(w, s, op, catalog) == Effect(Done(Returned(w.cells[s].session, true)),
      Some(w.cells[s].session), None, None);
    assert StartStep(w, tid, s, op, catalog).cells == w.cells;
    assert StartStep(w, tid, s, op, catalog) == w.(tasks := StartStep(w, tid, s, op, catalog).tasks, cells := w.cells);
  }

  /** A cached confirm repairs nothing either. */
  lemma CachedConfirmRepairsNothing(w: World, tid: Tid)
    requires Reachable(w) && Enabled(w, GetLock(tid)) && w.tasks[tid].pc.AtConfirmLock?
    requires var t := w.tasks[tid]; t.sid in w.cells && t.pc.key in w.cells[t.sid].recs
    ensures var s, w' := w.tasks[tid].sid, LockStep(w, tid);
            && w'.cells[s].session == w.cells[s].session && w'.cells[s].recs == w.cells[s].recs
                 && w'.counters == w.counters
            && w'.tasks[tid].pc.AtFulfill? && w'.tasks[tid].pc.attempt == 0
            && w'.tasks[tid].pc.fulfill ==
                 if w.cells[s].session.state == FulfillPending then Pending(w.tasks[tid].pc.key, true) else CachedReplay
  {
    hide Reachable, Inv, SliceOk, Repaired;
    var t := w.tasks[tid];
    SliceHolds(w, t.sid);
    RepairIsIdle(SliceOf(w, t.sid), t.pc.key, {Held, FulfillPending});
    HasOrderFields(SliceOf(w, t.sid));
  }

  lemma HasOrderFields(s: Slice)
    requires SliceOk(s) && HasOrder(s.session.state)
    ensures s.session.hold.Some? && s.session.order.Some? && s.session.key.Some?
  {
  }
}
