/** What the system knows about one session, in one place, and the invariant on it.

A `Slice` is a session with its cached records, the program counter of whoever holds its lock,
the orders that carry its correlation id, and the status of its hold upstream.  Every step of
the system changes at most one slice, so the safety argument is made here, slice by slice.
*/
module Slices {
  import opened Models
  import opened Retries
  import opened Inventory
  import opened Cart
  import opened Metrics
  import opened Program
  import opened Sections

  datatype Slice = Slice(
    session: Session,
    recs: map<Key, Record>,
    at: Option<Pc>,           // where the lock holder is suspended
    orders: seq<Order>,       // stored orders with this session's correlation id
    hold: Option<Status>,     // status of the session's hold upstream, None when it is gone
    pinned: bool,
    unclean: bool,
    lost: bool)

  predicate HasOrder(state: SessionState) {
    state in {FulfillPending, Confirmed, Reconciled}
  }

  /** The fields of a session agree with its state. */
  ghost predicate Shaped(x: Session) {
    && (x.hold.None? ==> x.state in {Created, Abandoned} && x.key.None?)
    && (x.hold.Some? ==> x.state != Created && GoodLines(x.lines))
    && (x.order.Some? <==> HasOrder(x.state))
    && (HasOrder(x.state) ==> x.key.Some?)
    && (x.state == Compensated ==> x.key.None?)
  }

  /** The idempotency cache holds one record when the session has an order, that session's, and
      otherwise none. */
  ghost predicate Cached(x: Session, recs: map<Key, Record>) {
    recs == if HasOrder(x.state) && x.key.Some? then map[x.key.value := RecordOf(x)] else map[]
  }

  /** While these calls are awaited an order may exist although no key is recorded yet. */
  predicate MayHaveOrder(at: Option<Pc>) {
    at.Some? && ((at.value.AtLookup? && at.value.lookup.AfterTimeout?)
      || (at.value.AtFulfill? && at.value.fulfill.NewOrder?))
  }

  ghost predicate Ordered(s: Slice) {
    && |s.orders| <= 1
    && (s.orders != [] ==>
          && s.session.hold.Some?
          && s.orders[0].body.ref == s.session.ref && s.orders[0].body.items == OrderItems(s.session.lines))
    && (s.session.order.Some? ==> s.orders != [] && s.orders[0].id == s.session.order.value)
    && (s.session.key.None? && !MayHaveOrder(s.at) ==> s.orders == [])
  }

  /** Where the hold must be, unless a release that was not acknowledged took it away. */
  ghost predicate HoldKept(s: Slice) {
    match s.session.state
    case Created => s.hold.None?
    case Held =>
      if s.at.Some? && s.at.value.AtRelease? then s.hold in {Some(Active), None}
      else if s.at.Some? && s.at.value.AtFulfill? then s.hold in {Some(Active), Some(Status.Fulfilled)}
      else s.hold == Some(Active)
    case FulfillPending => s.hold in {Some(Active), Some(Status.Fulfilled)}
    case Confirmed => s.hold == Some(Status.Fulfilled)
    case Reconciled => s.hold == Some(Status.Fulfilled)
    case Compensated => s.hold.None?
    case Abandoned => s.hold.None?
  }

  ghost predicate HoldTracked(s: Slice) {
    && (s.lost ==> s.unclean && s.session.hold.Some?)
    && if s.lost then s.hold.None? else HoldKept(s)
  }

  /** A lock holder suspended at `pc` left the session in the state that led there. */
  ghost predicate Placed(x: Session, pc: Pc, orders: seq<Order>) {
    && WithinBounds(pc)
    && match pc
       case AtStock(lines, _, _) => x.state == Created && GoodLines(lines)
       case AtCreateHold(lines, _, _) => x.state == Created && GoodLines(lines)
       case AtLookup(Unresolved(key), _, _) => x.state == Held && x.key == Some(key)
       case AtLookup(BeforePost(customer, _), _, _) => x.state == Held && x.key.None? && customer != ""
       case AtLookup(_, _, _) => x.state == Held && x.key.None?
       case AtPost(customer, _) => x.state == Held && x.key.None? && customer != ""
       case AtFulfill(NewOrder(order, key, _), _) => x.state == Held && x.key in {None, Some(key)} && orders == [order]
       case AtFulfill(Pending(key, _), _) => x.state == FulfillPending && x.key == Some(key)
       case AtFulfill(CachedReplay, _) => x.state in {Confirmed, Reconciled}
       case AtRelease(Compensating(_), _) => x.state == Held && x.key.None?
       case AtRelease(Abandoning, _) => x.state == Held
       case _ => false
  }

  ghost predicate SliceOk(s: Slice) {
    && Shaped(s.session) && Cached(s.session, s.recs) && Ordered(s) && HoldTracked(s)
    && (s.at.Some? ==> Placed(s.session, s.at.value, s.orders))
    && (s.pinned ==> s.session.key.Some?)
    && (s.session.key.Some? && !HasOrder(s.session.state) ==> s.pinned)
  }

  /** The slice after an effect run under the lock. */
  function Applied(s: Slice, e: Effect): Slice {
    s.(session := if e.saved.Some? then e.saved.value else s.session,
       recs := if e.put.Some? then s.recs[e.put.value.0 := e.put.value.1] else s.recs,
       at := if HoldsLock(e.pc) then Some(e.pc) else None,
       pinned := s.pinned || e.event == Some(StatusUnknown))
  }

  // ----- Getting the lock -------------------------------------------------------------------------

  lemma EnterHoldOk(s: Slice, lines: seq<Line>, customer: string, next: AfterHold)
    requires SliceOk(s) && s.at.None? && GoodLines(lines)
    ensures SliceOk(Applied(s, EnterHold(lines, customer, next, Some(s.session))))
  {
  }

  lemma EnterAbandonOk(s: Slice)
    requires SliceOk(s) && s.at.None?
    ensures SliceOk(Applied(s, EnterAbandon(Some(s.session))))
  {
  }

  /** Replaying a cached record repairs nothing: the session already agrees with it. */
  lemma RepairIsIdle(s: Slice, key: Key, states: set<SessionState>)
    requires SliceOk(s) && key in s.recs
    ensures HasOrder(s.session.state) && s.session.key == Some(key) && s.recs[key] == RecordOf(s.session)
    ensures Repaired(s.session, s.recs[key], states) == Some(s.session)
  {
  }

  lemma EnterConfirmOk(s: Slice, customer: Option<string>, key: Key, now: int)
    requires SliceOk(s) && s.at.None?
    ensures var cached := if key in s.recs then Some(s.recs[key]) else None;
            SliceOk(Applied(s, EnterConfirm(customer, key, Some(s.session), cached, now)))
  {
    if key in s.recs {
      RepairIsIdle(s, key, {Held, FulfillPending});
    }
  }

  /** What an effect leaves of a session's identity. */
  predicate KeepsIdentity(x: Session, e: Effect) {
    && (e.saved.Some? ==>
          && e.saved.value.id == x.id && e.saved.value.ref == x.ref
          && (x.hold.Some? ==> e.saved.value.hold == x.hold))
    && !e.pc.AtHoldLock?
  }

  lemma EnterOk(s: Slice, pc: Pc, now: int)
    requires SliceOk(s) && s.at.None? && WantsLock(pc) && (pc.AtHoldLock? ==> GoodLines(pc.lines))
    ensures var k := CacheKey(pc);
            var cached := if k.Some? && k.value in s.recs then Some(s.recs[k.value]) else None;
            var e := Enter(pc, Some(s.session), cached, now);
            && SliceOk(Applied(s, e)) && KeepsIdentity(s.session, e)
            && (e.saved.Some? ==> e.saved.value.hold == s.session.hold)
  {
    match pc
    case AtHoldLock(lines, customer, next) => EnterHoldOk(s, lines, customer, next);
    case AtConfirmLock(customer, key) => EnterConfirmOk(s, customer, key, now);
    case AtAbandonLock => EnterAbandonOk(s);
  }

  // ----- What a served call does to a slice ---------------------------------------------------------

  /** The replies the order service can give about this session, with the orders it then has. */
  ghost predicate LookupServed(s: Slice, reply: Reply) {
    reply.Failed? || reply == Found(if s.orders == [] then None else Some(s.orders[0]))
  }

  ghost predicate PostServed(s: Slice, body: OrderBody, orders: seq<Order>, reply: Reply) {
    match reply
    case Placed(order) => order.body == body && (orders == s.orders + [order]
      || (orders == s.orders && order in s.orders))
    case Failed(Timeout) => orders == s.orders || exists o: Order :: o.body == body && orders == s.orders + [o]
    case Failed(_) => orders == s.orders
    case _ => false
  }

  /** The replies the inventory service can give about this session's hold, with its status then. */
  ghost predicate FulfillServed(s: Slice, hold: Option<Status>, reply: Reply) {
    match reply
    case Accepted => s.hold.Some? && hold == Some(Status.Fulfilled)
    case Failed(Timeout) => hold == s.hold || (s.hold.Some? && hold == Some(Status.Fulfilled))
    case Failed(Upstream(404)) => s.hold.None? && hold.None?
    case Failed(f) => hold == s.hold && f != Upstream(409)
    case _ => false
  }

  ghost predicate ReleaseServed(s: Slice, hold: Option<Status>, reply: Reply) {
    match reply
    case Accepted => s.hold.Some? && s.hold != Some(Status.Fulfilled) && hold.None?
    case Failed(Timeout) => hold == s.hold || (s.hold != Some(Status.Fulfilled) && hold.None?)
    case Failed(Upstream(404)) => s.hold.None? && hold.None?
    case Failed(Upstream(409)) => s.hold == Some(Status.Fulfilled) && hold == s.hold
    case Failed(_) => hold == s.hold
    case _ => false
  }

  // ----- Resuming ---------------------------------------------------------------------------------------

  lemma StockOk(s: Slice, reply: Reply)
    requires SliceOk(s) && s.at.Some? && s.at.value.AtStock?
    ensures var pc := s.at.value;
            SliceOk(Applied(s, AfterStock(pc.lines, pc.customer, pc.next, reply)))
  {
  }

  lemma CreateHoldOk(s: Slice, reply: Reply)
    requires SliceOk(s) && s.at.Some? && s.at.value.AtCreateHold? && (reply.Failed? || reply.HoldMade?)
    ensures var pc := s.at.value;
            var after := Applied(s, AfterCreateHold(pc.lines, pc.customer, pc.next, s.session, reply));
            SliceOk(if reply.HoldMade? then after.(hold := Some(Active)) else after)
  {
  }

  lemma LookupOk(s: Slice, reply: Reply)
    requires SliceOk(s) && s.at.Some? && s.at.value.AtLookup? && LookupServed(s, reply)
    requires reply.Failed? || reply.Found?
    ensures SliceOk(Applied(s, Resume(s.at.value, s.session, reply)))
  {
    hide AfterLookup;
    var pc := s.at.value;
    match FindNext(pc.attempt, pc.max, reply)
    case Trying(next) =>
    case Ended(result) => AfterLookupOk(s, result);
  }

  lemma AfterLookupOk(s: Slice, result: Lookup)
    requires SliceOk(s) && s.at.Some? && s.at.value.AtLookup?
    requires result.Ok? ==> result.value == if s.orders == [] then None else Some(s.orders[0])
    ensures SliceOk(Applied(s, AfterLookup(s.at.value.lookup, s.session, result)))
  {
  }

  lemma PostOk(s: Slice, orders: seq<Order>, reply: Reply)
    requires SliceOk(s) && s.at.Some? && s.at.value.AtPost?
    requires PostServed(s, OrderPayload(s.session, s.at.value.customer), orders, reply)
    requires reply.Failed? || reply.Placed?
    ensures SliceOk(Applied(s, AfterPost(s.session, s.at.value.key, reply)).(orders := orders))
  {
    assert s.orders == [];
  }

  lemma FulfillOk(s: Slice, hold: Option<Status>, reply: Reply)
    requires SliceOk(s) && s.at.Some? && s.at.value.AtFulfill? && FulfillServed(s, hold, reply)
    requires reply.Failed? || reply.Accepted?
    ensures s.session.hold.Some?
    ensures SliceOk(Applied(s, Resume(s.at.value, s.session, reply)).(hold := hold))
  {
    hide AfterFulfill;
    var pc := s.at.value;
    match FulfillNext(pc.attempt, MAX_RETRIES, reply)
    case Trying(next) =>
    case Ended(result) => AfterFulfillOk(s, hold, result);
  }

  lemma AfterFulfillOk(s: Slice, hold: Option<Status>, fulfilled: bool)
    requires SliceOk(s) && s.at.Some? && s.at.value.AtFulfill?
    requires s.lost ==> hold.None?
    requires !s.lost ==> hold in {s.hold, Some(Status.Fulfilled)} && (fulfilled ==> hold == Some(Status.Fulfilled))
    ensures SliceOk(Applied(s, AfterFulfill(s.at.value.fulfill, s.session, fulfilled)).(hold := hold))
  {
    match s.at.value.fulfill
    case NewOrder(order, key, reconciled) => AfterNewOrderOk(s, hold, order, key, reconciled, fulfilled);
    case Pending(key, fromCache) =>
    case CachedReplay =>
  }

  lemma AfterNewOrderOk(s: Slice, hold: Option<Status>, order: Order, key: Key, reconciled: bool, fulfilled: bool)
    requires SliceOk(s) && s.at.Some? && s.at.value.AtFulfill? && s.at.value.fulfill == NewOrder(order, key, reconciled)
    requires s.lost ==> hold.None?
    requires !s.lost ==> hold in {s.hold, Some(Status.Fulfilled)} && (fulfilled ==> hold == Some(Status.Fulfilled))
    ensures SliceOk(Applied(s, AfterFulfill(NewOrder(order, key, reconciled), s.session, fulfilled)).(hold := hold))
  {
    hide GoodLines, OrderItems;
  }

  /** A release that ends without True marks the session; the hold is lost if it is gone by then. */
  lemma ReleaseOk(s: Slice, hold: Option<Status>, reply: Reply)
    requires SliceOk(s) && s.at.Some? && s.at.value.AtRelease? && ReleaseServed(s, hold, reply)
    requires reply.Failed? || reply.Accepted?
    ensures s.session.hold.Some?
    ensures var next := ReleaseNext(s.at.value.attempt, MAX_RETRIES, reply);
            var failed := next.Ended? && next.result != Ok(true);
            SliceOk(Applied(s, Resume(s.at.value, s.session, reply)).(
                      hold := hold, unclean := s.unclean || failed, lost := s.lost || (failed && hold.None?)))
  {
    hide AfterRelease;
    var pc := s.at.value;
    match ReleaseNext(pc.attempt, MAX_RETRIES, reply)
    case Trying(next) =>
    case Ended(result) => AfterReleaseOk(s, hold, result);
  }

  lemma AfterReleaseOk(s: Slice, hold: Option<Status>, result: Release)
    requires SliceOk(s) && s.at.Some? && s.at.value.AtRelease?
    requires if s.lost then hold.None? else hold in {Some(Active), None}
    requires result == Ok(true) ==> hold.None?
    ensures var failed := result != Ok(true);
            SliceOk(Applied(s, AfterRelease(s.at.value.release, s.session, result)).(
                      hold := hold, unclean := s.unclean || failed, lost := s.lost || (failed && hold.None?)))
  {
  }

  lemma ResumeKeepsIdentity(pc: Pc, x: Session, reply: Reply)
    requires AwaitsCall(pc) && (pc.AtFulfill? || pc.AtRelease? ==> x.hold.Some?) && Answers(CallOf(pc, x), reply)
    requires pc.AtCreateHold? ==> x.hold.None?
    ensures var e := Resume(pc, x, reply);
            && KeepsIdentity(x, e)
            && (e.saved.Some? ==>
                  e.saved.value.hold == (if pc.AtCreateHold? && reply.HoldMade? then Some(reply.hold) else x.hold))
            && (pc.AtCreateHold? && reply.HoldMade? ==> e.saved.Some?)
  {
  }
}
