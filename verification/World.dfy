/** The whole system as a step relation: any number of operations interleaved over shared
sessions, with the two upstream services and an adversary choosing the fate of every call.

The two local dictionaries are kept per session (a `Cell`), together with the session's lock and
the history the properties speak of.
*/
module World {
  import opened Models
  import opened Gateways
  import opened Retries
  import opened Inventory
  import Orders
  import opened Cart
  import opened Metrics
  import opened Program
  type Tid = nat

  /** One locked section: whose, where it got the lock, when, and what it exchanged. */
  datatype Section = Section(tid: Tid, pc: Pc, now: int, trace: seq<Exchange>)

  datatype Cell = Cell(
    session: Session,
    recs: map<Key, Record>,
    lock: Option<Tid>,
    // history
    pinned: bool,             // an order attempt of unknown fate was recorded
    unclean: bool,            // some release_hold_safe did not return True
    lost: bool,               // ... although the hold was gone by then
    sections: seq<Section>)   // every locked section so far, in lock order

  /** A running operation with its local copy of the session. */
  datatype Task = Task(sid: Sid, local: Session, pc: Pc)

  datatype World = World(
    cells: map<Sid, Cell>,
    tasks: map<Tid, Task>,
    counters: Counters,
    ihms: Ihms,
    ecops: Orders.Ecops,
    dedup: bool,              // does the order service honour idempotency keys and references?
    clock: int,
    // history
    refs: set<Ref>,           // correlation ids minted
    issued: set<HoldId>,      // hold ids issued
    orphans: set<HoldId>,     // holds made by a create_hold that timed out
    stock0: map<Pid, int>)    // initial stock

  // ----- The upstream services and the fault model -----------------------------------------------

  /** The fate of a call: answered; refused by an HTTP error status without effect; dropped by the
      transport without effect; or timed out, having taken effect or not. */
  datatype Fault = Fine | Refused(status: int) | Dropped | TimedOutCall(applied: bool)

  predicate Effective(fault: Fault) {
    fault == Fine || fault == TimedOutCall(true)
  }

  function FaultReply(fault: Fault): Reply
    requires fault != Fine
  {
    match fault
    case Refused(status) => Failed(Upstream(status))
    case Dropped => Failed(Transport)
    case TimedOutCall(_) => Failed(Timeout)
  }

  function StatusReply(status: int): Reply {
    if 200 <= status < 300 then Accepted else Failed(Upstream(status))
  }

  function ServeIhms(s: Ihms, call: Call, newId: HoldId, now: int): (Ihms, Reply)
    requires !call.FindOrder? && !call.PostOrder?
  {
    match call
    case GetInventory => (s, Stock(s.inventory))
    case CreateHold(items) =>
      var (s', answer) := CreateHoldAt(s, items, newId, now);
      (s', match answer
           case Made(record) => HoldMade(newId, record.expires)
           case Refused => Failed(Upstream(409))
           case Crashed => Failed(Upstream(500)))
    case GetHold(h) => (s, StatusReply(GetHoldAt(s, h)))
    case ReleaseHold(h) => (ReleaseHoldAt(s, h).0, StatusReply(ReleaseHoldAt(s, h).1))
    case FulfillHold(h) => (FulfillHoldAt(s, h).0, StatusReply(FulfillHoldAt(s, h).1))
  }

  /** With `dedup` false every POST is accepted, as by a service that ignores both key and reference. */
  function ServeEcops(s: Orders.Ecops, call: Call, newId: OrderId, dedup: bool): (Orders.Ecops, Reply)
    requires call.FindOrder? || call.PostOrder?
  {
    match call
    case FindOrder(ref) => (s, Found(Orders.FirstFor(s.orders, ref)))
    case PostOrder(body, key) =>
      if dedup then
        var (s', answer) := Orders.CreateOrderAt(s, Some(key), body, newId, Orders.Normal);
        (s', match answer
             case Stored(_, order) => Placed(order)
             case Hung(order) => Placed(order)
             case Rejected(status) => Failed(Upstream(status)))
      else
        (s.(orders := s.orders + [Order(newId, body)]), Placed(Order(newId, body)))
  }

  datatype Served = Served(ihms: Ihms, ecops: Orders.Ecops, reply: Reply)

  function Serve(w: World, call: Call, fault: Fault, newId: nat): Served {
    if !Effective(fault) then Served(w.ihms, w.ecops, FaultReply(fault))
    else if call.FindOrder? || call.PostOrder? then
      var (ecops, reply) := ServeEcops(w.ecops, call, newId, w.dedup);
      Served(w.ihms, ecops, if fault == Fine then reply else FaultReply(fault))
    else
      var (ihms, reply) := ServeIhms(w.ihms, call, newId, w.clock);
      Served(ihms, w.ecops, if fault == Fine then reply else FaultReply(fault))
  }

  /** New ids are fresh, and only the inventory service itself answers 404 or 409 about a hold. */
  ghost predicate Plausible(w: World, call: Call, fault: Fault, newId: nat) {
    && (call.CreateHold? ==> newId !in w.issued)
    && (call.PostOrder? ==> forall o :: o in w.ecops.orders ==> o.id != newId)
    && (call.GetHold? || call.ReleaseHold? || call.FulfillHold? ==>
          fault != Fault.Refused(404) && fault != Fault.Refused(409))
  }

  // ----- Steps ------------------------------------------------------------------------------------------

  datatype Step =
    | NewSession(sid: Sid, ref: Ref)
    | StartOp(tid: Tid, sid: Sid, op: Op, catalog: Catalog)
    | GetLock(tid: Tid)
    | Respond(tid: Tid, fault: Fault, newId: nat)
    | Tick(elapsed: nat)

  function SessionOf(w: World, sid: Sid): Option<Session> {
    if sid in w.cells then Some(w.cells[sid].session) else None
  }

  function RecordAt(w: World, sid: Sid, key: Option<Key>): Option<Record> {
    if sid in w.cells && key.Some? && key.value in w.cells[sid].recs then Some(w.cells[sid].recs[key.value]) else None
  }

  function OpKey(op: Op): Option<Key> {
    if op.PlaceOrder? then Some(op.key) else None
  }

  /** A cell after an effect of task `tid`, run under the session's lock. */
  function Commit(c: Cell, tid: Tid, e: Effect): Cell {
    c.(session := if e.saved.Some? then e.saved.value else c.session,
       recs := if e.put.Some? then c.recs[e.put.value.0 := e.put.value.1] else c.recs,
       lock := if HoldsLock(e.pc) then Some(tid) else None,
       pinned := c.pinned || e.event == Some(StatusUnknown))
  }

  function Advance(t: Task, e: Effect): Task {
    t.(local := if e.saved.Some? then e.saved.value else t.local, pc := e.pc)
  }

  /** Did this reply end a release_hold_safe without True? */
  predicate ReleaseFailed(pc: Pc, reply: Reply)
    requires reply.Failed? || reply.Accepted?
  {
    pc.AtRelease? && match ReleaseNext(pc.attempt, MAX_RETRIES, reply)
                     case Ended(result) => result != Ok(true)
                     case Trying(_) => false
  }

  function NewSessionStep(w: World, sid: Sid, ref: Ref): World {
    w.(cells := w.cells[sid := Cell(FreshSession(sid, ref), map[], None, false, false, false, [])],
       refs := w.refs + {ref})
  }

  function StartEffect(w: World, sid: Sid, op: Op, catalog: Catalog): Effect {
    Start(op, catalog, SessionOf(w, sid), RecordAt(w, sid, OpKey(op)))
  }

  function StartStep(w: World, tid: Tid, sid: Sid, op: Op, catalog: Catalog): World {
    var e := StartEffect(w, sid, op, catalog);
    var local := if sid in w.cells then w.cells[sid].session else FreshSession(sid, 0);
    w.(tasks := w.tasks[tid := Advance(Task(sid, local, e.pc), e)],
       cells := if sid in w.cells && e.saved.Some? then w.cells[sid := w.cells[sid].(session := e.saved.value)]
         else w.cells)
  }

  function LockEffect(w: World, tid: Tid): Effect
    requires tid in w.tasks && WantsLock(w.tasks[tid].pc)
  {
    var t := w.tasks[tid];
    Enter(t.pc, SessionOf(w, t.sid), RecordAt(w, t.sid, CacheKey(t.pc)), w.clock)
  }

  function LockStep(w: World, tid: Tid): World
    requires tid in w.tasks && WantsLock(w.tasks[tid].pc)
  {
    var t := w.tasks[tid];
    var e := LockEffect(w, tid);
    if t.sid !in w.cells then w.(tasks := w.tasks[tid := t.(pc := e.pc)]) else
      var c := w.cells[t.sid];
      w.(tasks := w.tasks[tid := Advance(t.(local := c.session), e)],
         cells := w.cells[t.sid := Commit(c, tid, e).(sections := c.sections + [Section(tid, t.pc, w.clock, [])])],
         counters := Tally(w.counters, e.event))
  }

  function TaskCall(t: Task): Call
    requires AwaitsCall(t.pc) && (t.pc.AtFulfill? || t.pc.AtRelease? ==> t.local.hold.Some?)
  {
    CallOf(t.pc, t.local)
  }

  ghost predicate CanRespond(w: World, tid: Tid, fault: Fault, newId: nat) {
    && tid in w.tasks
    && var t := w.tasks[tid];
       && AwaitsCall(t.pc) && (t.pc.AtFulfill? || t.pc.AtRelease? ==> t.local.hold.Some?)
       && (HoldsLock(t.pc) ==> t.sid in w.cells && w.cells[t.sid].sections != [])
       && Plausible(w, TaskCall(t), fault, newId)
  }

  /** Append an exchange to the last section. */
  function Noted(sections: seq<Section>, x: Exchange): seq<Section>
    requires sections != []
  {
    var n := |sections| - 1;
    sections[n := sections[n].(trace := sections[n].trace + [x])]
  }

  function RespondStep(w: World, tid: Tid, fault: Fault, newId: nat): World
    requires CanRespond(w, tid, fault, newId)
  {
    var t := w.tasks[tid];
    var call := TaskCall(t);
    var served := Serve(w, call, fault, newId);
    ServeAnswers(w, call, fault, newId);
    var e := Resume(t.pc, t.local, served.reply);
    var w1 := w.(tasks := w.tasks[tid := Advance(t, e)], counters := Tally(w.counters, e.event),
                 ihms := served.ihms, ecops := served.ecops,
                 issued := w.issued + served.ihms.holds.Keys,
                 orphans := if call.CreateHold?
                   && served.reply.Failed? then w.orphans + (served.ihms.holds.Keys - w.ihms.holds.Keys)
                            else w.orphans);
    if !HoldsLock(t.pc) then w1 else
      var c := w.cells[t.sid];
      var failed := t.pc.AtRelease? && ReleaseFailed(t.pc, served.reply);
      w1.(cells := w.cells[t.sid := Commit(c, tid, e).(
            unclean := c.unclean || failed,
            lost := c.lost || (failed && t.local.hold.value !in served.ihms.holds),
            sections := Noted(c.sections, Exchange(call, served.reply)))])
  }

  lemma ServeAnswers(w: World, call: Call, fault: Fault, newId: nat)
    ensures Answers(call, Serve(w, call, fault, newId).reply)
  {
  }

  /** A refused, dropped or unapplied call has no effect; an applied call that times out has the effect of the
      answered one; and an answered call answers from the current state. */
  lemma ServeIs(w: World, call: Call, fault: Fault, newId: nat)
    ensures var served, fine := Serve(w, call, fault, newId), Serve(w, call, Fine, newId);
            && (forall status :: fault == Fault.Refused(status) ==>
                  served == Served(w.ihms, w.ecops, Failed(Upstream(status))))
            && (fault == Dropped ==> served == Served(w.ihms, w.ecops, Failed(Transport)))
            && (fault == TimedOutCall(false) ==> served == Served(w.ihms, w.ecops, Failed(Timeout)))
            && (fault == TimedOutCall(true) ==> served == Served(fine.ihms, fine.ecops, Failed(Timeout)))
            && (call.PostOrder? || call.FindOrder? || call.GetInventory? || call.GetHold? ==> fine.ihms == w.ihms)
            && (!call.PostOrder? ==> fine.ecops == w.ecops)
            && (call == GetInventory ==> fine.reply == Stock(w.ihms.inventory))
            && (call.FindOrder? ==> fine.reply == Found(Orders.FirstFor(w.ecops.orders, call.ref)))
            && (call.GetHold? || call.FulfillHold? || call.ReleaseHold? ==>
                  (fine.reply == Failed(Upstream(404)) <==> call.hold !in w.ihms.holds)
                  && (fine.reply.Failed? ==> fine.reply.why in {Upstream(404), Upstream(409)} && fine.ihms == w.ihms))
            && (call.PostOrder? && !w.dedup ==>
                  fine.ecops.orders == w.ecops.orders + [Order(newId, call.body)]
                  && fine.reply == Placed(Order(newId, call.body)))
            && (call.PostOrder? && w.dedup && fine.reply.Failed? ==> fine.ecops == w.ecops)
  {
  }

  ghost predicate Enabled(w: World, step: Step) {
    match step
    case NewSession(sid, ref) => sid !in w.cells && ref !in w.refs && forall t :: t in w.tasks ==> w.tasks[t].sid != sid
    case StartOp(tid, _, _, _) => tid !in w.tasks
    case GetLock(tid) =>
      tid in w.tasks && WantsLock(w.tasks[tid].pc)
      && (w.tasks[tid].sid in w.cells ==> w.cells[w.tasks[tid].sid].lock.None?)
    case Respond(tid, fault, newId) => CanRespond(w, tid, fault, newId)
    case Tick(_) => true
  }

  function Take(w: World, step: Step): World
    requires Enabled(w, step)
  {
    match step
    case NewSession(sid, ref) => NewSessionStep(w, sid, ref)
    case StartOp(tid, sid, op, catalog) => StartStep(w, tid, sid, op, catalog)
    case GetLock(tid) => LockStep(w, tid)
    case Respond(tid, fault, newId) => RespondStep(w, tid, fault, newId)
    case Tick(elapsed) => w.(clock := w.clock + elapsed)
  }

  // ----- Runs ---------------------------------------------------------------------------------------------

  ghost predicate Init(w: World) {
    && w.cells == map[] && w.tasks == map[] && w.counters == ZERO
    && w.ihms == Ihms(w.stock0, map[]) && (forall p :: p in w.stock0 ==> w.stock0[p] >= 0)
    && w.ecops == Orders.Ecops([], map[])
    && w.refs == {} && w.issued == {} && w.orphans == {}
  }

  ghost predicate Next(w: World, w': World) {
    exists step :: Enabled(w, step) && w' == Take(w, step)
  }

  /** The successive states of a run. */
  ghost predicate IsRun(ws: seq<World>) {
    && ws != [] && Init(ws[0])
    && forall i :: 0 <= i < |ws| - 1 ==> Next(ws[i], ws[i + 1])
  }

  ghost predicate Reachable(w: World) {
    exists ws :: IsRun(ws) && ws[|ws| - 1] == w
  }
}
