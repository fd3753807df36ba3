/** The saga operations as resumable programs (src/saga/coordinator.py, src/checkout/service.py).

A running operation is suspended at a `Pc`: waiting for a session lock or for the reply to one
upstream call.  Between two suspensions it runs without interruption; that stretch is one
`Effect`: what it writes to the two local stores, what it counts, and where it suspends next.
*/
module Program {
  import opened Models
  import opened Retries
  import opened Cart
  import opened Metrics

  // ----- Suspension points ----------------------------------------------------------------

  /** What place_hold returns to: its caller, or the rest of place_order. */
  datatype AfterHold = Return | ThenConfirm(customer: string, key: Key)

  /** Why find_order_by_reference was called. */
  datatype LookupReason =
    | BeforePost(customer: string, key: Key)
    | AfterConflict(key: Key)
    | AfterTimeout(key: Key)
    | Unresolved(key: Key)

  datatype FulfillReason =
    | NewOrder(order: Order, key: Key, reconciled: bool)
    | Pending(key: Key, fromCache: bool)
    | CachedReplay

  datatype ReleaseReason = Compensating(cause: Failure) | Abandoning

  datatype Pc =
    | AtHoldLock(lines: seq<Line>, customer: string, next: AfterHold)
    | AtStock(lines: seq<Line>, customer: string, next: AfterHold)
    | AtCreateHold(lines: seq<Line>, customer: string, next: AfterHold)
    | AtGate(hold: HoldId, customerArg: Option<string>, key: Key)
    | AtConfirmLock(customerArg: Option<string>, key: Key)
    | AtLookup(lookup: LookupReason, attempt: nat, max: nat)
    | AtPost(customer: string, key: Key)
    | AtFulfill(fulfill: FulfillReason, attempt: nat)
    | AtRelease(release: ReleaseReason, attempt: nat)
    | AtAbandonLock
    | Done(outcome: Outcome)

  predicate WantsLock(pc: Pc) {
    pc.AtHoldLock? || pc.AtConfirmLock? || pc.AtAbandonLock?
  }

  /** Suspended on a call while holding the session lock. */
  predicate HoldsLock(pc: Pc) {
    pc.AtStock? || pc.AtCreateHold? || pc.AtLookup? || pc.AtPost? || pc.AtFulfill? || pc.AtRelease?
  }

  predicate AwaitsCall(pc: Pc) {
    HoldsLock(pc) || pc.AtGate?
  }

  /** The call a suspended operation is waiting for; `s` is its local copy of the session. */
  function CallOf(pc: Pc, s: Session): Call
    requires AwaitsCall(pc)
    requires pc.AtFulfill? || pc.AtRelease? ==> s.hold.Some?
  {
    match pc
    case AtStock(_, _, _) => GetInventory
    case AtCreateHold(lines, _, _) => CreateHold(HoldItems(lines))
    case AtGate(hold, _, _) => GetHold(hold)
    case AtLookup(_, _, _) => FindOrder(s.ref)
    case AtPost(customer, key) => PostOrder(OrderPayload(s, customer), key)
    case AtFulfill(_, _) => FulfillHold(s.hold.value)
    case AtRelease(_, _) => ReleaseHold(s.hold.value)
  }

  // ----- Effects ------------------------------------------------------------------------------

  datatype Effect = Effect(pc: Pc, saved: Option<Session>, put: Option<(Key, Record)>, event: Option<Event>)

  function Go(pc: Pc): Effect {
    Effect(pc, None, None, None)
  }

  function Fail(e: Error): Effect {
    Go(Done(Raised(e)))
  }

  // ----- place_hold -------------------------------------------------------------------------------

  /** Up to the lock: nothing here is protected by it. */
  function StartHold(catalog: Catalog, items: seq<Item>, customer: string, session: Option<Session>,
                     next: AfterHold): Effect
  {
    if items == [] then Fail(InvalidTransition) else
      match CartLines(catalog, items)
      case Err(e) => Fail(e)
      case Ok(lines) =>
        if session.None? then Fail(SessionNotFound)
        else if session.value.state != Created then Fail(InvalidTransition)
        else Go(AtHoldLock(lines, customer, next))
  }

  function EnterHold(lines: seq<Line>, customer: string, next: AfterHold, session: Option<Session>): Effect {
    if session.None? then Fail(SessionNotFound)
    else if session.value.state != Created then Fail(InvalidTransition)
    else Go(AtStock(lines, customer, next))
  }

  function AfterStock(lines: seq<Line>, customer: string, next: AfterHold, reply: Reply): Effect {
    if reply.Stock? && FirstShort(lines, reply.levels).Some? then Fail(InsufficientStock)
    else Go(AtCreateHold(lines, customer, next))
  }

  function AfterCreateHold(lines: seq<Line>, customer: string, next: AfterHold, s: Session, reply: Reply): Effect
    requires reply.Failed? || reply.HoldMade?
  {
    match reply
    case Failed(f) =>
      Effect(Done(Raised(Gateway(f))), None, None, if f.Upstream? then Some(HoldFailed) else None)
    case HoldMade(hold, expires) =>
      var held := s.(state := Held, hold := Some(hold), expires := Some(expires),
                     customer := Some(customer), lines := lines);
      var pc := match next
                case Return => Done(Returned(held, false))
                case ThenConfirm(customer, key) => AtConfirmLock(Some(customer), key);
      Effect(pc, Some(held), None, Some(HoldPlaced))
  }

  // ----- confirm --------------------------------------------------------------------------------------

  /** The repair written when a cached record is replayed. */
  function Repaired(s: Session, r: Record, repairable: set<SessionState>): Option<Session> {
    var withOrder := if r.order.Some? then s.(order := r.order) else s;
    if s.state in repairable then Some(withOrder.(state := r.body.state))
    else if r.order.Some? then Some(withOrder)
    else None
  }

  function OrElse(preferred: Option<string>, fallback: Option<string>): Option<string> {
    if preferred.Some? && preferred.value != "" then preferred else fallback
  }

  predicate Expired(s: Session, now: int) {
    s.expires.Some? && s.expires.value <= now
  }

  function EnterConfirm(customer: Option<string>, key: Key, session: Option<Session>,
                        cached: Option<Record>, now: int): Effect
  {
    if session.None? then Fail(SessionNotFound)
    else if cached.Some? then ReplayConfirm(key, session.value, cached.value)
    else
      var s := session.value;
      if s.state == FulfillPending then
        if s.key != Some(key) then Fail(InvalidTransition) else StartPending(s, key, false)
      else if s.state != Held then Fail(InvalidTransition)
      else if s.key.Some? then
        if s.key != Some(key) then Fail(InvalidTransition) else Go(AtLookup(Unresolved(key), 0, MAX_RETRIES))
      else if s.lines == [] then Fail(InvalidTransition)
      else if Expired(s, now) then Fail(HoldExpired)
      else
        var resolved := OrElse(customer, s.customer);
        if resolved.None? || resolved.value == "" then Fail(InvalidTransition)
        else Go(AtLookup(BeforePost(resolved.value, key), 0, 0))
  }

  function ReplayConfirm(key: Key, s: Session, r: Record): Effect {
    var saved := Repaired(s, r, {Held, FulfillPending});
    var current := if saved.Some? then saved.value else s;
    if current.state == FulfillPending then StartPending(current, key, true).(saved := saved)
    else if current.hold.Some? && current.IsTerminal() then Effect(AtFulfill(CachedReplay, 0), saved, None, None)
    else Effect(Done(Returned(current, true)), saved, None, None)
  }

  function StartPending(s: Session, key: Key, fromCache: bool): Effect {
    if s.hold.None? || s.order.None? then Fail(InvalidTransition)
    else Go(AtFulfill(Pending(key, fromCache), 0))
  }

  function AfterLookup(why: LookupReason, s: Session, result: Lookup): Effect {
    match result
    case Ok(Some(order)) =>
      StartFulfill(NewOrder(order, why.key, true), s)
    case Ok(None) =>
      (match why
       case BeforePost(customer, key) => Go(AtPost(customer, key))
       case AfterConflict(_) => Compensate(s, Upstream(409))
       case AfterTimeout(_) => Compensate(s, Timeout)
       case Unresolved(_) => Fail(OrderStatusUnknown))
    case Err(f) =>
      (match why
       case BeforePost(_, _) => Compensate(s, f)
       case AfterConflict(_) => Compensate(s, f)
       case AfterTimeout(key) => Pin(s, key)
       case Unresolved(_) => Fail(OrderStatusUnknown))
  }

  function AfterPost(s: Session, key: Key, reply: Reply): Effect
    requires reply.Failed? || reply.Placed?
  {
    match reply
    case Placed(order) => StartFulfill(NewOrder(order, key, false), s)
    case Failed(Upstream(status)) =>
      if status == 409 then Go(AtLookup(AfterConflict(key), 0, MAX_RETRIES)) else Compensate(s, reply.why)
    case Failed(Timeout) => Go(AtLookup(AfterTimeout(key), 0, MAX_RETRIES))
    case Failed(Transport) => Compensate(s, Transport)
  }

  /** The order may exist: keep the hold and remember the key. */
  function Pin(s: Session, key: Key): Effect {
    Effect(Done(Raised(OrderStatusUnknown)), Some(s.(key := Some(key))), None, Some(StatusUnknown))
  }

  function StartFulfill(why: FulfillReason, s: Session): Effect
    requires why.NewOrder?
  {
    if s.hold.Some? then Go(AtFulfill(why, 0)) else AfterFulfill(why, s, true)
  }

  function AfterFulfill(why: FulfillReason, s: Session, fulfilled: bool): Effect {
    match why
    case NewOrder(order, key, reconciled) =>
      if fulfilled
      then Finalize(s, order.id, key, if reconciled then Reconciled else Confirmed, ConfirmSucceeded(reconciled), false)
      else
        var pending := s.(state := FulfillPending, order := Some(order.id), key := Some(key));
        Effect(Done(Returned(pending, false)), Some(pending), Some((key, RecordOf(pending))), None)
    case Pending(key, fromCache) =>
      if fulfilled && s.order.Some?
      then Finalize(s, s.order.value, key, Confirmed, ConfirmSucceeded(false), fromCache)
      else Go(Done(Returned(s, fromCache)))
    case CachedReplay =>
      Go(Done(Returned(s, true)))
  }

  function Finalize(s: Session, order: OrderId, key: Key, terminal: SessionState, event: Event,
                    fromCache: bool): Effect {
    if s.state !in {Held, FulfillPending} then Fail(InvalidTransition) else
      var final := s.(state := terminal, order := Some(order), key := Some(key));
      Effect(Done(Returned(final, fromCache)), Some(final), Some((key, RecordOf(final))), Some(event))
  }

  // ----- Compensation and abandon ------------------------------------------------------------------------

  /** What confirm raises once compensation is through: a timeout is reported as incomplete. */
  function Rethrown(cause: Failure): Error {
    if cause == Timeout then CompensationIncomplete else Gateway(cause)
  }

  function Compensate(s: Session, cause: Failure): Effect {
    if s.hold.Some? then Go(AtRelease(Compensating(cause), 0)) else Fail(Rethrown(cause))
  }

  function AfterRelease(why: ReleaseReason, s: Session, result: Release): Effect {
    match result
    case Err(f) => Fail(Gateway(f))
    case Ok(false) => Fail(CompensationIncomplete)
    case Ok(true) =>
      (match why
       case Compensating(cause) =>
         Effect(Done(Raised(Rethrown(cause))),
                if s.state == Held then Some(s.(state := Compensated, key := None)) else None,
                None, Some(CompensationDone))
       case Abandoning => FinishAbandon(s))
  }

  function EnterAbandon(session: Option<Session>): Effect {
    if session.None? then Fail(SessionNotFound) else
      var s := session.value;
      if s.IsTerminal() || s.state == FulfillPending then Fail(InvalidTransition)
      else if s.state == Held && s.hold.Some? then Go(AtRelease(Abandoning, 0))
      else FinishAbandon(s)
  }

  function FinishAbandon(s: Session): Effect {
    var abandoned := s.(state := Abandoned);
    Effect(Done(Returned(abandoned, false)), Some(abandoned), None, Some(AbandonDone))
  }

  /** The name place_order takes to its order: the one given, the one the session was held under, or
      a placeholder. */
  function OrderName(customer: string, s: Session): (name: string)
    ensures name != "" && (customer != "" ==> name == customer)
  {
    if customer != "" then customer
    else if s.customer.Some? && s.customer.value != "" then s.customer.value
    else "Guest"
  }

  // ----- Starting, entering the lock, resuming --------------------------------------------------------------

  datatype Op =
    | PlaceHold(items: seq<Item>, customer: string)
    | Confirm(customerArg: Option<string>, key: Key)
    | GatedConfirm(customerArg: Option<string>, key: Key) // the confirm of the checkout service
    | Abandon
    | PlaceOrder(items: seq<Item>, customer: string, key: Key)

  /** The stretch before the first suspension, with no lock held. */
  function Start(op: Op, catalog: Catalog, session: Option<Session>, cached: Option<Record>): Effect {
    match op
    case PlaceHold(items, customer) => StartHold(catalog, items, customer, session, Return)
    case Confirm(customer, key) => Go(AtConfirmLock(customer, key))
    case GatedConfirm(customer, key) =>
      if session.Some? && session.value.state in {Held, FulfillPending} && session.value.key.None?
        && session.value.hold.Some?
      then Go(AtGate(session.value.hold.value, customer, key))
      else Go(AtConfirmLock(customer, key))
    case Abandon => Go(AtAbandonLock)
    case PlaceOrder(items, customer, key) =>
      if session.None? then Fail(SessionNotFound)
      else if cached.Some? then
        var saved := Repaired(session.value, cached.value, {Created, Held, FulfillPending});
        Effect(Done(Returned(if saved.Some? then saved.value else session.value, true)), saved, None, None)
      else
        var s := session.value;
        var name := OrderName(customer, s);
        if s.IsTerminal() then Fail(InvalidTransition)
        else if s.state == Created then StartHold(catalog, items, name, session, ThenConfirm(name, key))
        else Go(AtConfirmLock(Some(name), key))
  }

  /** The stretch after the lock is granted. */
  function Enter(pc: Pc, session: Option<Session>, cached: Option<Record>, now: int): Effect
    requires WantsLock(pc)
  {
    match pc
    case AtHoldLock(lines, customer, next) => EnterHold(lines, customer, next, session)
    case AtConfirmLock(customer, key) => EnterConfirm(customer, key, session, cached, now)
    case AtAbandonLock => EnterAbandon(session)
  }

  /** The idempotency key an operation looks up when it gets the lock. */
  function CacheKey(pc: Pc): Option<Key> {
    if pc.AtConfirmLock? then Some(pc.key) else None
  }

  /** The stretch after a reply; `s` is the local copy taken under the lock. */
  function Resume(pc: Pc, s: Session, reply: Reply): Effect
    requires AwaitsCall(pc)
    requires pc.AtFulfill? || pc.AtRelease? ==> s.hold.Some?
    requires Answers(CallOf(pc, s), reply)
  {
    match pc
    case AtStock(lines, customer, next) => AfterStock(lines, customer, next, reply)
    case AtCreateHold(lines, customer, next) => AfterCreateHold(lines, customer, next, s, reply)
    case AtGate(_, customer, key) =>
      if reply.Failed?
      then Fail(if Settled(reply) then HoldExpired else Gateway(reply.why))
      else Go(AtConfirmLock(customer, key))
    case AtLookup(why, attempt, max) =>
      (match FindNext(attempt, max, reply)
       case Trying(next) => Go(AtLookup(why, next, max))
       case Ended(result) => AfterLookup(why, s, result))
    case AtPost(_, key) => AfterPost(s, key, reply)
    case AtFulfill(why, attempt) =>
      (match FulfillNext(attempt, MAX_RETRIES, reply)
       case Trying(next) => Go(AtFulfill(why, next))
       case Ended(result) => AfterFulfill(why, s, result))
    case AtRelease(why, attempt) =>
      (match ReleaseNext(attempt, MAX_RETRIES, reply)
       case Trying(next) => Go(AtRelease(why, next))
       case Ended(result) => AfterRelease(why, s, result))
  }
}
