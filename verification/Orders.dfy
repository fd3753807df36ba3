/** The order service (docker/mock-upstreams/ecops/app.py).

`Ecops` is the service state as a value, with one function per endpoint; `EcopsService` is the
service as it is written, appending to its list of orders and writing its key dictionary.
Request bodies are compared directly where the source compares their hashes.
*/
module Orders {
  import opened Models

  datatype Ecops = Ecops(orders: seq<Order>, idempotency: map<Key, OrderId>)

  datatype Scenario = Normal | OrderError | OrderTimeout

  /** The HTTP answer: a stored order with 200 or 201, or an error status.  In the order-timeout
      scenario the order is committed and the answer comes after the client has given up. */
  datatype Answer = Stored(status: int, order: Order) | Rejected(status: int) | Hung(order: Order)

  // ----- The endpoints ------------------------------------------------------------------------

  function OrdersFor(orders: seq<Order>, ref: Ref): seq<Order> {
    if orders == [] then [] else
      var last := orders[|orders| - 1];
      OrdersFor(orders[..|orders| - 1], ref) + (if last.body.ref == ref then [last] else [])
  }

  /** The client takes the first of the listed orders. */
  function FirstFor(orders: seq<Order>, ref: Ref): Option<Order> {
    var found := OrdersFor(orders, ref);
    if found == [] then None else Some(found[0])
  }

  /** The first stored order with this id. */
  function ById(orders: seq<Order>, id: OrderId): Option<Order> {
    if orders == [] then None
    else if orders[0].id == id then Some(orders[0])
    else ById(orders[1..], id)
  }

  predicate RefInUse(orders: seq<Order>, ref: Ref) {
    exists o :: o in orders && o.body.ref == ref
  }

  /** What the service demands of a request body; anything else is a 422. */
  predicate ValidBody(body: OrderBody) {
    && body.customer != "" && body.items != []
    && forall i :: 0 <= i < |body.items| ==> body.items[i].quantity > 0 && body.items[i].price >= 0
  }

  function CreateOrderAt(s: Ecops, key: Option<Key>, body: OrderBody, newId: OrderId,
                         scenario: Scenario): (Ecops, Answer)
  {
    if !ValidBody(body) || key == None then (s, Rejected(422)) else
      var existing := if key.value in s.idempotency then ById(s.orders, s.idempotency[key.value]) else None;
      if existing.Some? then
        (s, if existing.value.body != body then Rejected(409) else Stored(200, existing.value))
      else if scenario == OrderError then (s, Rejected(500))
      else if RefInUse(s.orders, body.ref) then (s, Rejected(409))
      else
        var order := Order(newId, body);
        (Ecops(s.orders + [order], s.idempotency[key.value := newId]),
         if scenario == OrderTimeout then Hung(order) else Stored(201, order))
  }

  // ----- The service in place -----------------------------------------------------------------------

  class EcopsService {
    var orders: seq<Order>
    var idempotency: map<Key, OrderId>

    function Value(): Ecops
      reads this
    {
      Ecops(orders, idempotency)
    }

    constructor ()
      ensures Value() == Ecops([], map[])
    {
      orders, idempotency := [], map[];
    }

    method ListOrders(ref: Ref) returns (found: seq<Order>)
      ensures found == OrdersFor(orders, ref)
    {
      found := [];
      for i := 0 to |orders|
        invariant found == OrdersFor(orders[..i], ref)
      {
        assert orders[..i + 1][..i] == orders[..i];
        if orders[i].body.ref == ref {
          found := found + [orders[i]];
        }
      }
      assert orders[..|orders|] == orders;
    }

    method CreateOrder(key: Option<Key>, body: OrderBody, newId: OrderId, scenario: Scenario)
      returns (answer: Answer)
      modifies this
      ensures (Value(), answer) == CreateOrderAt(old(Value()), key, body, newId, scenario)
    {
      if !ValidBody(body) {
        return Rejected(422);
      }
      if key == None {
        return Rejected(422);
      }
      if key.value in idempotency {
        var existing := idempotency[key.value];
        for i := 0 to |orders|
          invariant ById(orders, existing) == ById(orders[i..], existing)
        {
          assert orders[i..][1..] == orders[i + 1..];
          if orders[i].id == existing {
            return if orders[i].body != body then Rejected(409) else Stored(200, orders[i]);
          }
        }
      }
      if scenario == OrderError {
        return Rejected(500);
      }
      for i := 0 to |orders|
        invariant !RefInUse(orders[..i], body.ref)
      {
        if orders[i].body.ref == body.ref {
          return Rejected(409);
        }
      }
      assert orders[..|orders|] == orders;
      var order := Order(newId, body);
      orders := orders + [order];
      idempotency := idempotency[key.value := newId];
      answer := if scenario == OrderTimeout then Hung(order) else Stored(201, order);
    }
  }

  // ----- What the service keeps, for every sequence of requests ------------------------------------------

  lemma {:induction false} OrdersForMeans(orders: seq<Order>, ref: Ref)
    ensures forall o :: o in OrdersFor(orders, ref) <==> o in orders && o.body.ref == ref
    ensures OrdersFor(orders, ref) != [] <==> RefInUse(orders, ref)
  {
    if orders != [] {
      var n := |orders| - 1;
      OrdersForMeans(orders[..n], ref);
      assert orders == orders[..n] + [orders[n]];
      if OrdersFor(orders, ref) != [] {
        var o := OrdersFor(orders, ref)[0];
        assert o in OrdersFor(orders, ref);
      }
      if RefInUse(orders, ref) {
        var o :| o in orders && o.body.ref == ref;
        assert o in OrdersFor(orders, ref);
      }
    }
  }

  lemma OrdersForAppend(orders: seq<Order>, order: Order, ref: Ref)
    ensures OrdersFor(orders + [order], ref)
              == OrdersFor(orders, ref) + (if order.body.ref == ref then [order] else [])
  {
    assert (orders + [order])[..|orders|] == orders;
  }

  lemma {:induction false} ByIdMeans(orders: seq<Order>, id: OrderId)
    ensures match ById(orders, id)
            case Some(o) => o in orders && o.id == id
            case None => forall o :: o in orders ==> o.id != id
  {
    if orders != [] {
      ByIdMeans(orders[1..], id);
      assert orders == [orders[0]] + orders[1..];
    }
  }

  ghost predicate DistinctIds(orders: seq<Order>) {
    forall i, j :: 0 <= i < j < |orders| ==> orders[i].id != orders[j].id
  }

  ghost predicate DistinctRefs(orders: seq<Order>) {
    forall i, j :: 0 <= i < j < |orders| ==> orders[i].body.ref != orders[j].body.ref
  }

  /** Every key points to a stored order; order ids and client references are pairwise distinct. */
  ghost predicate Consistent(s: Ecops) {
    && DistinctIds(s.orders) && DistinctRefs(s.orders)
    && forall k :: k in s.idempotency ==> ById(s.orders, s.idempotency[k]).Some?
  }

  datatype Request = Request(key: Option<Key>, body: OrderBody, newId: OrderId, scenario: Scenario)

  function Handle(s: Ecops, r: Request): Ecops {
    CreateOrderAt(s, r.key, r.body, r.newId, r.scenario).0
  }

  function HandleAll(s: Ecops, rs: seq<Request>): Ecops {
    if rs == [] then s else Handle(HandleAll(s, rs[..|rs| - 1]), rs[|rs| - 1])
  }

  lemma {:induction false} ByIdAppend(orders: seq<Order>, order: Order, id: OrderId)
    ensures ById(orders + [order], id) ==
            if ById(orders, id).Some? then ById(orders, id)
            else if order.id == id then Some(order) else None
  {
    if orders == [] {
      assert orders + [order] == [order];
    } else {
      assert (orders + [order])[1..] == orders[1..] + [order];
      ByIdAppend(orders[1..], order, id);
    }
  }

  lemma CreateKeepsConsistent(s: Ecops, r: Request)
    requires Consistent(s)
    requires forall o :: o in s.orders ==> o.id != r.newId
    ensures Consistent(Handle(s, r))
    ensures s.orders <= Handle(s, r).orders
  {
    var s' := Handle(s, r);
    if s' != s {
      var order := Order(r.newId, r.body);
      forall k | k in s'.idempotency ensures ById(s'.orders, s'.idempotency[k]).Some? {
        ByIdAppend(s.orders, order, s'.idempotency[k]);
      }
    }
  }

  ghost predicate FreshIds(s: Ecops, rs: seq<Request>) {
    forall n, o :: 0 <= n < |rs| && o in HandleAll(s, rs[..n]).orders ==> o.id != rs[n].newId
  }

  /** From a consistent store (the empty one, say), over any requests with fresh order ids: the
      store stays consistent and no order is ever dropped or changed. */
  lemma {:induction false} StoreStaysConsistent(s: Ecops, rs: seq<Request>)
    requires Consistent(s) && FreshIds(s, rs)
    ensures Consistent(HandleAll(s, rs))
    ensures s.orders <= HandleAll(s, rs).orders
  {
    if rs != [] {
      var n := |rs| - 1;
      FreshIdsPrefix(s, rs, n);
      StoreStaysConsistent(s, rs[..n]);
      CreateKeepsConsistent(HandleAll(s, rs[..n]), rs[n]);
    }
  }

  lemma FreshIdsPrefix(s: Ecops, rs: seq<Request>, n: nat)
    requires n <= |rs| && FreshIds(s, rs)
    ensures FreshIds(s, rs[..n])
  {
    forall k, o | 0 <= k < n && o in HandleAll(s, rs[..n][..k]).orders ensures o.id != rs[..n][k].newId {
      assert rs[..n][..k] == rs[..k];
    }
  }

  /** A key that has stored an order answers for it ever after: the same body gets the original
      order, any other valid body a 409, and the store does not change. */
  lemma KeyIsSticky(s: Ecops, key: Key, body: OrderBody, newId: OrderId, scenario: Scenario)
    requires Consistent(s) && key in s.idempotency && ValidBody(body)
    ensures var (s', answer) := CreateOrderAt(s, Some(key), body, newId, scenario);
            && s' == s
            && exists o :: o in s.orders && o.id == s.idempotency[key]
                           && answer == (if o.body == body then Stored(200, o) else Rejected(409))
  {
    ByIdMeans(s.orders, s.idempotency[key]);
    var o := ById(s.orders, s.idempotency[key]).value;
    assert o in s.orders && o.id == s.idempotency[key];
  }

  /** A POST that committed, answered or not, is what the next lookup finds, and the only order of
      its reference. */
  lemma CommittedIsVisible(s: Ecops, key: Key, body: OrderBody, newId: OrderId, scenario: Scenario)
    requires CreateOrderAt(s, Some(key), body, newId, scenario).0 != s
    ensures var (s', answer) := CreateOrderAt(s, Some(key), body, newId, scenario);
            && OrdersFor(s.orders, body.ref) == []
            && OrdersFor(s'.orders, body.ref) == [Order(newId, body)]
            && FirstFor(s'.orders, body.ref) == Some(Order(newId, body))
            && answer == (if scenario == OrderTimeout then Hung(Order(newId, body))
                 else Stored(201, Order(newId, body)))
            && forall ref :: ref != body.ref ==> OrdersFor(s'.orders, ref) == OrdersFor(s.orders, ref)
  {
    OrdersForMeans(s.orders, body.ref);
    forall ref ensures OrdersFor(s.orders + [Order(newId, body)], ref)
                       == OrdersFor(s.orders, ref) + (if body.ref == ref then [Order(newId, body)] else [])
    {
      OrdersForAppend(s.orders, Order(newId, body), ref);
    }
  }

  /** A POST either stores its order or answers without a change; what it returns with success is an
      order of its own body. */
  lemma CreateOutcome(s: Ecops, key: Key, body: OrderBody, newId: OrderId)
    ensures var (s', answer) := CreateOrderAt(s, Some(key), body, newId, Normal);
            var order := Order(newId, body);
            match answer
            case Stored(_, o) => (s'.orders == s.orders + [order] && o == order)
                                 || (s' == s && o.body == body && o in OrdersFor(s.orders, body.ref))
            case Rejected(_) => s' == s
            case Hung(_) => false
  {
    OrdersForMeans(s.orders, body.ref);
    if key in s.idempotency {
      ByIdMeans(s.orders, s.idempotency[key]);
    }
  }

  /** For a reference not in use, a valid POST fails with 409 exactly when its key already stands for a
      stored order, and otherwise stores its order. */
  lemma ConflictOnFreshRef(s: Ecops, key: Key, body: OrderBody, newId: OrderId)
    requires OrdersFor(s.orders, body.ref) == [] && ValidBody(body)
    ensures var answer := CreateOrderAt(s, Some(key), body, newId, Normal).1;
            if key in s.idempotency && ById(s.orders, s.idempotency[key]).Some? then
              var o := ById(s.orders, s.idempotency[key]).value;
              answer == Rejected(409) && o in s.orders && o.body.ref != body.ref
            else
              answer == Stored(201, Order(newId, body))
  {
    OrdersForMeans(s.orders, body.ref);
    if key in s.idempotency {
      ByIdMeans(s.orders, s.idempotency[key]);
    }
  }

  /** The whole answer of a POST, case by case in the order in which they are looked at: a body or key the
      service does not take, a key that stands for a stored order, a failing service, a client reference
      already in use under another key, and else a new order. */
  lemma PostIs(s: Ecops, key: Option<Key>, body: OrderBody, newId: OrderId, scenario: Scenario)
    requires DistinctIds(s.orders)
    ensures var (s', answer) := CreateOrderAt(s, key, body, newId, scenario);
            var invalid := key == None || body.customer == "" || body.items == []
                           || exists i :: 0 <= i < |body.items|
                                && (body.items[i].quantity <= 0 || body.items[i].price < 0);
            if invalid then s' == s && answer == Rejected(422)
            else if exists o :: o in s.orders && key.value in s.idempotency && o.id == s.idempotency[key.value] then
              s' == s && forall o :: o in s.orders && o.id == s.idempotency[key.value] ==>
                           answer == if o.body == body then Stored(200, o) else Rejected(409)
            else if scenario == OrderError then s' == s && answer == Rejected(500)
            else if exists o :: o in s.orders && o.body.ref == body.ref then s' == s && answer == Rejected(409)
            else
              && s'.orders == s.orders + [Order(newId, body)] && s'.idempotency == s.idempotency[key.value := newId]
              && answer == if scenario == OrderTimeout then Hung(Order(newId, body))
                   else Stored(201, Order(newId, body))
  {
    if key.Some? && key.value in s.idempotency {
      ByIdMeans(s.orders, s.idempotency[key.value]);
      forall o, p | o in s.orders && p in s.orders && o.id == p.id ensures o == p {
        SameId(s.orders, o, p);
      }
    }
  }

  lemma SameId(orders: seq<Order>, o: Order, p: Order)
    requires DistinctIds(orders) && o in orders && p in orders && o.id == p.id
    ensures o == p
  {
    var i :| 0 <= i < |orders| && orders[i] == o;
    var j :| 0 <= j < |orders| && orders[j] == p;
  }

  /** The lookup takes the order that was stored first. */
  lemma {:induction false} FirstForIs(orders: seq<Order>, ref: Ref, n: nat)
    requires n < |orders| && orders[n].body.ref == ref && forall i :: 0 <= i < n ==> orders[i].body.ref != ref
    ensures FirstFor(orders, ref) == Some(orders[n])
  {
    var m := |orders| - 1;
    if n < m {
      FirstForIs(orders[..m], ref, n);
    } else {
      OrdersForMeans(orders[..m], ref);
    }
  }
}
