/** Session records, gateway messages and errors shared by every part of the model.

Identifiers (UUIDs, hold ids, SKUs, idempotency keys, ...) are opaque: they are only
compared for equality, so each is a natural number.  An identifier is never the empty
string, which makes the source's truth tests on them (`if session.hold_id`) presence tests.
*/
module Models {

  type Sid = nat
  type Ref = nat
  type Key = nat
  type HoldId = nat
  type OrderId = nat
  type Pid = nat
  type Sku = nat
  type Code = nat

  datatype Option<+T> = None | Some(value: T)

  datatype Result<+T, +E> = Ok(value: T) | Err(error: E)

  // ----- Sessions (src/session/models.py) ---------------------------------------

  datatype SessionState =
    | Created
    | Held
    | FulfillPending
    | Confirmed
    | Abandoned
    | Compensated
    | Reconciled

  /** One cart line, frozen when the hold is placed. */
  datatype Line = Line(sku: Sku, name: string, pid: Pid, code: Code, quantity: int, price: int)

  datatype Session = Session(
    id: Sid,
    ref: Ref,
    state: SessionState,
    hold: Option<HoldId>,
    order: Option<OrderId>,
    expires: Option<int>,
    key: Option<Key>,
    customer: Option<string>,
    lines: seq<Line>)
  {
    predicate IsTerminal() {
      state in {Confirmed, Abandoned, Compensated, Reconciled}
    }
  }

  function FreshSession(id: Sid, ref: Ref): Session {
    Session(id, ref, Created, None, None, None, None, None, [])
  }

  /** The response body cached for a confirmed key, with the order id kept beside it. */
  datatype Body = Body(sid: Sid, ref: Ref, state: SessionState, hold: Option<HoldId>,
                       order: Option<OrderId>, expires: Option<int>)

  datatype Record = Record(statusCode: int, body: Body, order: Option<OrderId>)

  function RecordOf(s: Session): Record {
    Record(200, Body(s.id, s.ref, s.state, s.hold, s.order, s.expires), s.order)
  }

  // ----- Gateway messages ----------------------------------------------------------

  /** What a gateway client raises: UpstreamError and its subclasses carry the HTTP status
      (404 and 409 on a hold are HoldNotFoundError and HoldConflictError), GatewayTimeoutError,
      and any other GatewayError. */
  datatype Failure = Upstream(status: int) | Timeout | Transport

  datatype HoldItem = HoldItem(pid: Pid, quantity: int)

  datatype OrderItem = OrderItem(code: Code, quantity: int, price: int)

  datatype OrderBody = OrderBody(customer: string, ref: Ref, items: seq<OrderItem>)

  datatype Order = Order(id: OrderId, body: OrderBody)

  datatype Call =
    | GetInventory
    | CreateHold(items: seq<HoldItem>)
    | GetHold(hold: HoldId)
    | ReleaseHold(hold: HoldId)
    | FulfillHold(hold: HoldId)
    | FindOrder(ref: Ref)
    | PostOrder(body: OrderBody, key: Key)

  datatype Reply =
    | Failed(why: Failure)
    | Stock(levels: map<Pid, int>)
    | HoldMade(hold: HoldId, expires: int)
    | Accepted
    | Found(order: Option<Order>)
    | Placed(placed: Order)

  /** Every call can fail; when it does not, the reply has the shape the client decodes. */
  predicate Answers(call: Call, reply: Reply) {
    reply.Failed? ||
    match call
    case GetInventory => reply.Stock?
    case CreateHold(_) => reply.HoldMade?
    case GetHold(_) => reply.Accepted?
    case ReleaseHold(_) => reply.Accepted?
    case FulfillHold(_) => reply.Accepted?
    case FindOrder(_) => reply.Found?
    case PostOrder(_, _) => reply.Placed?
  }

  // ----- Results of saga operations -------------------------------------------------

  datatype Error =
    | SessionNotFound
    | ProductNotFound
    | LineRejected
    | InvalidTransition
    | HoldExpired
    | InsufficientStock
    | CompensationIncomplete
    | OrderStatusUnknown
    | Gateway(failure: Failure)

  datatype Outcome = Returned(session: Session, fromCache: bool) | Raised(error: Error)

  // ----- Payloads --------------------------------------------------------------------

  function HoldItems(lines: seq<Line>): seq<HoldItem> {
    seq(|lines|, i requires 0 <= i < |lines| => HoldItem(lines[i].pid, lines[i].quantity))
  }

  function OrderItems(lines: seq<Line>): seq<OrderItem> {
    seq(|lines|, i requires 0 <= i < |lines| =>
      OrderItem(lines[i].code, lines[i].quantity, lines[i].price))
  }

  function OrderPayload(s: Session, customer: string): OrderBody {
    OrderBody(customer, s.ref, OrderItems(s.lines))
  }
}
