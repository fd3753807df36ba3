/** The invariant of the whole system, and that every reachable state satisfies it. */
module Reach {
  import opened Models
  import opened Gateways
  import opened Retries
  import opened Inventory
  import opened InventoryLaws
  import Orders
  import opened Cart
  import opened Metrics
  import opened Program
  import opened Slices
  import opened World

  // ----- From the system to a slice --------------------------------------------------------------

  function HoldStatus(s: Ihms, h: Option<HoldId>): Option<Status> {
    if h.Some? && h.value in s.holds then Some(s.holds[h.value].status) else None
  }

  function HolderPc(w: World, sid: Sid): Option<Pc>
    requires sid in w.cells
  {
    var lock := w.cells[sid].lock;
    if lock.Some? && lock.value in w.tasks then Some(w.tasks[lock.value].pc) else None
  }

  function SliceOf(w: World, sid: Sid): Slice
    requires sid in w.cells
  {
    var c := w.cells[sid];
    Slice(c.session, c.recs, HolderPc(w, sid), Orders.OrdersFor(w.ecops.orders, c.session.ref),
          HoldStatus(w.ihms, c.session.hold), c.pinned, c.unclean, c.lost)
  }

  // ----- The invariant -------------------------------------------------------------------------------

  /** Session ids and correlation ids identify sessions. */
  ghost predicate Identified(w: World) {
    && (forall s :: s in w.cells ==> w.cells[s].session.id == s && w.cells[s].session.ref in w.refs)
    && (forall s, t :: s in w.cells && t in w.cells && s != t ==> w.cells[s].session.ref != w.cells[t].session.ref)
    && (forall r :: r in w.refs ==> exists s :: s in w.cells && w.cells[s].session.ref == r)
  }

  /** A lock names the one task that runs under it, and that task's copy of the session is current. */
  ghost predicate Locked(w: World) {
    && (forall t :: t in w.tasks && HoldsLock(w.tasks[t].pc) ==>
          && w.tasks[t].sid in w.cells && w.cells[w.tasks[t].sid].lock == Some(t)
          && w.tasks[t].local == w.cells[w.tasks[t].sid].session
          && w.cells[w.tasks[t].sid].sections != [])
    && (forall s :: s in w.cells && w.cells[s].lock.Some? ==>
          var t := w.cells[s].lock.value;
          t in w.tasks && w.tasks[t].sid == s && HoldsLock(w.tasks[t].pc))
  }

  /** Tasks that wait to place a hold carry acceptable lines. */
  ghost predicate Waiting(w: World) {
    forall t :: t in w.tasks && w.tasks[t].pc.AtHoldLock? ==> GoodLines(w.tasks[t].pc.lines)
  }

  /** Every order carries a minted correlation id, and order ids are distinct. */
  ghost predicate OrdersBelong(w: World) {
    && (forall o :: o in w.ecops.orders ==> o.body.ref in w.refs)
    && Orders.DistinctIds(w.ecops.orders)
  }

  /** Hold ids identify holds: no two sessions share one, and every recorded hold is a session's or
      an orphan. */
  ghost predicate HoldsBelong(w: World) {
    && w.ihms.holds.Keys <= w.issued && w.orphans <= w.issued
    && (forall s :: s in w.cells && w.cells[s].session.hold.Some? ==>
          w.cells[s].session.hold.value in w.issued && w.cells[s].session.hold.value !in w.orphans)
    && (forall s, t :: s in w.cells && t in w.cells && s != t && w.cells[s].session.hold.Some? ==>
          w.cells[s].session.hold != w.cells[t].session.hold)
    && (forall h :: h in w.ihms.holds && h !in w.orphans ==>
         exists s :: s in w.cells && w.cells[s].session.hold == Some(h))
  }

  ghost predicate SlicesOk(w: World) {
    forall s :: s in w.cells ==> SliceOk(SliceOf(w, s))
  }

  ghost predicate Inv(w: World) {
    Identified(w) && Locked(w) && Waiting(w) && OrdersBelong(w) && HoldsBelong(w) && SlicesOk(w)
  }

  // ----- A step that touches one session ------------------------------------------------------------

  /** From `w` to `w'` only task `tid` and its session `sid` change, and upstream only what belongs
      to that session. */
  ghost predicate OneSession(w: World, w': World, tid: Tid, sid: Sid) {
    && sid in w.cells && w'.cells.Keys == w.cells.Keys && w'.refs == w.refs
    && (forall s :: s in w.cells && s != sid ==> w'.cells[s] == w.cells[s])
    && tid in w'.tasks && w'.tasks == w.tasks[tid := w'.tasks[tid]] && w'.tasks[tid].sid == sid
    && w.cells[sid].lock in {None, Some(tid)}
    && (tid in w.tasks ==> w.tasks[tid].sid == sid && (HoldsLock(w.tasks[tid].pc) ==> w.cells[sid].lock == Some(tid)))
    && OwnCell(w, w', tid, sid)
    && UpstreamFrame(w, w', sid)
  }

  ghost predicate OwnCell(w: World, w': World, tid: Tid, sid: Sid)
    requires sid in w.cells && sid in w'.cells && tid in w'.tasks
  {
    var c, c', t := w.cells[sid], w'.cells[sid], w'.tasks[tid];
       && c'.session.id == sid && c'.session.ref == c.session.ref
       && (c'.session.hold == c.session.hold ||
           (c.session.hold.None? && c'.session.hold.Some?
             && c'.session.hold.value in w'.issued - w.issued - w'.orphans))
       && c'.lock == (if HoldsLock(t.pc) then Some(tid) else None)
       && (HoldsLock(t.pc) ==> t.local == c'.session && c'.sections != [])
       && (t.pc.AtHoldLock? ==> GoodLines(t.pc.lines))
  }

  ghost predicate UpstreamFrame(w: World, w': World, sid: Sid)
    requires sid in w.cells && sid in w'.cells
  {
    && w.issued <= w'.issued && w.orphans <= w'.orphans && w'.orphans - w.orphans <= w'.issued - w.issued
    && w'.ihms.holds.Keys <= w'.issued
    && (forall h :: h in w'.ihms.holds ==>
         h in w.ihms.holds || h in w'.orphans || w'.cells[sid].session.hold == Some(h))
    && (forall h :: h in w.issued && w.cells[sid].session.hold != Some(h) ==>
         HoldStatus(w'.ihms, Some(h)) == HoldStatus(w.ihms, Some(h)))
    && OrdersBelong(w')
    && (forall r :: r != w.cells[sid].session.ref ==>
         Orders.OrdersFor(w'.ecops.orders, r) == Orders.OrdersFor(w.ecops.orders, r))
  }

  lemma OthersKeep(w: World, w': World, tid: Tid, sid: Sid, s: Sid)
    requires Inv(w) && OneSession(w, w', tid, sid) && s in w.cells && s != sid
    ensures SliceOf(w', s) == SliceOf(w, s)
  {
    hide SliceOk, Orders.OrdersFor, OrdersBelong, Waiting, GoodLines;
    assert w'.cells[s] == w.cells[s];
    assert HolderPc(w', s) == HolderPc(w, s);
    assert HoldStatus(w'.ihms, w.cells[s].session.hold) == HoldStatus(w.ihms, w.cells[s].session.hold);
  }

  lemma KeepsLocked(w: World, w': World, tid: Tid, sid: Sid)
    requires Locked(w) && Waiting(w) && OneSession(w, w', tid, sid)
    ensures Locked(w') && Waiting(w')
  {
    hide UpstreamFrame, GoodLines;
  }

  lemma KeepsHolds(w: World, w': World, tid: Tid, sid: Sid)
    requires HoldsBelong(w) && OneSession(w, w', tid, sid)
    ensures HoldsBelong(w')
  {
    hide OrdersBelong, Orders.OrdersFor, HoldStatus, GoodLines;
    forall h | h in w'.orphans ensures h in w'.issued {
      assert h in w.orphans || h in w'.orphans - w.orphans;
    }
    forall s | s in w'.cells && w'.cells[s].session.hold.Some?
      ensures w'.cells[s].session.hold.value in w'.issued && w'.cells[s].session.hold.value !in w'.orphans
    {
      var h := w'.cells[s].session.hold.value;
      assert s == sid || w'.cells[s] == w.cells[s];
      assert h in w'.orphans ==> h in w.orphans || h in w'.orphans - w.orphans;
    }
    forall s, t | s in w'.cells && t in w'.cells && s != t && w'.cells[s].session.hold.Some?
      ensures w'.cells[s].session.hold != w'.cells[t].session.hold
    {
      assert s == sid || w'.cells[s] == w.cells[s];
      assert t == sid || w'.cells[t] == w.cells[t];
    }
    forall h | h in w'.ihms.holds && h !in w'.orphans
      ensures exists s :: s in w'.cells && w'.cells[s].session.hold == Some(h) {
      if w'.cells[sid].session.hold != Some(h) {
        assert h in w.ihms.holds;
        var s :| s in w.cells && w.cells[s].session.hold == Some(h);
        assert s in w'.cells && w'.cells[s].session.hold == Some(h);
      }
    }
  }

  lemma KeepsIdentified(w: World, w': World, tid: Tid, sid: Sid)
    requires Identified(w) && OneSession(w, w', tid, sid)
    ensures Identified(w')
  {
    hide UpstreamFrame, GoodLines, Identified;
    SameRefs(w, w', tid, sid);
    IdentifiedBySame(w, w');
  }

  lemma SameRefs(w: World, w': World, tid: Tid, sid: Sid)
    requires OneSession(w, w', tid, sid) && Identified(w)
    ensures w'.cells.Keys == w.cells.Keys && w'.refs == w.refs
    ensures forall s :: s in w.cells ==>
              w'.cells[s].session.id == s && w'.cells[s].session.ref == w.cells[s].session.ref
  {
    hide UpstreamFrame, GoodLines;
  }

  lemma IdentifiedBySame(w: World, w': World)
    requires Identified(w) && w'.cells.Keys == w.cells.Keys && w'.refs == w.refs
    requires forall s :: s in w.cells ==>
               w'.cells[s].session.id == s && w'.cells[s].session.ref == w.cells[s].session.ref
    ensures Identified(w')
  {
    forall r | r in w'.refs ensures exists s :: s in w'.cells && w'.cells[s].session.ref == r {
      var s :| s in w.cells && w.cells[s].session.ref == r;
      assert s in w'.cells && w'.cells[s].session.ref == r;
    }
  }

  lemma OneSessionKeeps(w: World, w': World, tid: Tid, sid: Sid)
    requires Inv(w) && OneSession(w, w', tid, sid) && SliceOk(SliceOf(w', sid))
    ensures Inv(w')
  {
    hide SliceOk, SliceOf, Identified, Locked, Waiting, HoldsBelong, GoodLines;
    KeepsIdentified(w, w', tid, sid);
    KeepsLocked(w, w', tid, sid);
    KeepsHolds(w, w', tid, sid);
    forall s | s in w'.cells && s != sid ensures SliceOk(SliceOf(w', s)) {
      OthersKeep(w, w', tid, sid, s);
    }
  }

  // ----- What the services do, seen from one session ---------------------------------------------------

  lemma FindServed(w: World, sid: Sid, fault: Fault, newId: nat)
    requires sid in w.cells
    ensures var served := Serve(w, FindOrder(w.cells[sid].session.ref), fault, newId);
            LookupServed(SliceOf(w, sid), served.reply) && served.ihms == w.ihms && served.ecops == w.ecops
  {
  }

  lemma PostIsServed(w: World, sid: Sid, body: OrderBody, key: Key, fault: Fault, newId: nat)
    requires sid in w.cells && body.ref == w.cells[sid].session.ref && body.ref in w.refs
    requires OrdersBelong(w) && Plausible(w, PostOrder(body, key), fault, newId)
    ensures var served := Serve(w, PostOrder(body, key), fault, newId);
            && served.ihms == w.ihms
            && PostServed(SliceOf(w, sid), body, Orders.OrdersFor(served.ecops.orders, body.ref), served.reply)
            && (forall r :: r != body.ref ==>
                 Orders.OrdersFor(served.ecops.orders, r) == Orders.OrdersFor(w.ecops.orders, r))
            && (served.ecops.orders == w.ecops.orders || served.ecops.orders == w.ecops.orders + [Order(newId, body)])
  {
    hide Orders.CreateOrderAt, Orders.OrdersFor, OrdersBelong;
    var served := Serve(w, PostOrder(body, key), fault, newId);
    var order := Order(newId, body);
    Orders.CreateOutcome(w.ecops, key, body, newId);
    forall r ensures Orders.OrdersFor(w.ecops.orders + [order], r)
                     == Orders.OrdersFor(w.ecops.orders, r) + (if body.ref == r then [order] else [])
    {
      Orders.OrdersForAppend(w.ecops.orders, order, r);
    }
  }

  lemma FulfillIsServed(w: World, sid: Sid, fault: Fault, newId: nat)
    requires sid in w.cells && w.cells[sid].session.hold.Some?
    requires Plausible(w, FulfillHold(w.cells[sid].session.hold.value), fault, newId)
    ensures var h := w.cells[sid].session.hold.value;
            var served := Serve(w, FulfillHold(h), fault, newId);
            && served.ecops == w.ecops && FulfillServed(SliceOf(w, sid), HoldStatus(served.ihms, Some(h)), served.reply)
            && served.ihms.holds.Keys == w.ihms.holds.Keys
            && forall g :: g != h ==> HoldStatus(served.ihms, Some(g)) == HoldStatus(w.ihms, Some(g))
  {
  }

  lemma ReleaseIsServed(w: World, sid: Sid, fault: Fault, newId: nat)
    requires sid in w.cells && w.cells[sid].session.hold.Some?
    requires Plausible(w, ReleaseHold(w.cells[sid].session.hold.value), fault, newId)
    ensures var h := w.cells[sid].session.hold.value;
            var served := Serve(w, ReleaseHold(h), fault, newId);
            && served.ecops == w.ecops && ReleaseServed(SliceOf(w, sid), HoldStatus(served.ihms, Some(h)), served.reply)
            && served.ihms.holds.Keys <= w.ihms.holds.Keys
            && forall g :: g != h ==> HoldStatus(served.ihms, Some(g)) == HoldStatus(w.ihms, Some(g))
  {
  }

  lemma CreateIsServed(w: World, items: seq<HoldItem>, fault: Fault, newId: nat)
    requires Positive(items) && newId !in w.ihms.holds
    ensures var served := Serve(w, CreateHold(items), fault, newId);
            && served.ecops == w.ecops
            && (served.ihms.holds == w.ihms.holds ||
                (newId in served.ihms.holds && served.ihms.holds[newId].status == Active
                 && served.ihms.holds == w.ihms.holds[newId := served.ihms.holds[newId]]))
            && (served.reply.HoldMade? ==> served.reply.hold == newId && newId in served.ihms.holds)
            && (served.reply.HoldMade? || served.reply.Failed?)
  {
    CreatePositive(w.ihms, items, newId, w.clock);
  }

  // ----- Every step keeps the invariant ----------------------------------------------------------------------

  /** Only task `tid` changes, and it holds no lock before or after. */
  ghost predicate LocklessTask(w: World, w': World, tid: Tid) {
    && tid in w'.tasks && w'.tasks == w.tasks[tid := w'.tasks[tid]]
    && (tid in w.tasks ==> !HoldsLock(w.tasks[tid].pc))
    && !HoldsLock(w'.tasks[tid].pc) && (w'.tasks[tid].pc.AtHoldLock? ==> GoodLines(w'.tasks[tid].pc.lines))
    && w'.cells == w.cells && w'.ihms == w.ihms && w'.ecops == w.ecops
    && w'.refs == w.refs && w'.issued == w.issued && w'.orphans == w.orphans
  }

  lemma LocklessSlice(w: World, w': World, tid: Tid, s: Sid)
    requires Locked(w) && LocklessTask(w, w', tid) && s in w.cells
    ensures SliceOf(w', s) == SliceOf(w, s)
  {
    hide GoodLines, Orders.OrdersFor;
  }

  lemma LocklessTaskKeeps(w: World, w': World, tid: Tid)
    requires Inv(w) && LocklessTask(w, w', tid)
    ensures Inv(w')
  {
    hide SliceOk, SliceOf, GoodLines;
    forall s | s in w.cells ensures SliceOk(SliceOf(w', s)) {
      LocklessSlice(w, w', tid, s);
    }
  }

  lemma StartShape(op: Op, catalog: Catalog, session: Option<Session>, cached: Option<Record>)
    ensures var e := Start(op, catalog, session, cached);
            && !HoldsLock(e.pc) && e.put.None? && e.event.None?
            && (e.pc.AtHoldLock? ==> GoodLines(e.pc.lines))
            && (e.saved.Some? ==> op.PlaceOrder? && session.Some? && cached.Some?
                                  && e.saved == Repaired(session.value, cached.value, {Created, Held, FulfillPending}))
  {
    hide CartLines;
    match op
    case PlaceHold(items, _) =>
      if items != [] && CartLines(catalog, items).Ok? { CartRequest(catalog, items); }
    case PlaceOrder(items, _, _) =>
      if items != [] && CartLines(catalog, items).Ok? { CartRequest(catalog, items); }
    case _ =>
  }

  /** Starting an operation writes nothing: a lock-free replay repairs a session that needs none. */
  lemma StartKeeps(w: World, tid: Tid, sid: Sid, op: Op, catalog: Catalog)
    requires Inv(w) && tid !in w.tasks
    ensures Inv(StartStep(w, tid, sid, op, catalog))
    ensures StartStep(w, tid, sid, op, catalog).cells == w.cells
  {
    hide Start, SliceOk, Repaired, GoodLines, OrdersBelong, HoldsBelong, Identified, Waiting, Locked,
      Orders.OrdersFor, HoldStatus;
    var cached := RecordAt(w, sid, OpKey(op));
    StartShape(op, catalog, SessionOf(w, sid), cached);
    var w' := StartStep(w, tid, sid, op, catalog);
    if sid in w.cells && cached.Some? {
      RepairIsIdle(SliceOf(w, sid), OpKey(op).value, {Created, Held, FulfillPending});
      assert w.cells[sid := w.cells[sid].(session := w.cells[sid].session)] == w.cells;
    }
    LocklessTaskKeeps(w, w', tid);
  }

  lemma NewSessionSlice(w: World, sid: Sid, ref: Ref, s: Sid)
    requires Inv(w) && Enabled(w, NewSession(sid, ref)) && s in NewSessionStep(w, sid, ref).cells
    ensures SliceOk(SliceOf(NewSessionStep(w, sid, ref), s))
  {
    hide SliceOk, GoodLines, Orders.OrdersFor, HoldsBelong;
    var w' := NewSessionStep(w, sid, ref);
    if s == sid {
      Orders.OrdersForMeans(w.ecops.orders, ref);
      FreshOk(SliceOf(w', sid));
    } else {
      assert SliceOf(w', s) == SliceOf(w, s);
    }
  }

  lemma NewSessionHolds(w: World, sid: Sid, ref: Ref)
    requires HoldsBelong(w) && sid !in w.cells
    ensures HoldsBelong(NewSessionStep(w, sid, ref))
  {
    var w' := NewSessionStep(w, sid, ref);
    forall h | h in w'.ihms.holds && h !in w'.orphans
      ensures exists s :: s in w'.cells && w'.cells[s].session.hold == Some(h) {
      var s :| s in w.cells && w.cells[s].session.hold == Some(h);
      assert s in w'.cells && w'.cells[s].session.hold == Some(h);
    }
  }

  lemma NewSessionKeeps(w: World, sid: Sid, ref: Ref)
    requires Inv(w) && Enabled(w, NewSession(sid, ref))
    ensures Inv(NewSessionStep(w, sid, ref))
  {
    hide SliceOk, SliceOf, GoodLines, HoldsBelong, Identified;
    var w' := NewSessionStep(w, sid, ref);
    NewSessionHolds(w, sid, ref);
    NewSessionIdentified(w, sid, ref);
    forall s | s in w'.cells ensures SliceOk(SliceOf(w', s)) {
      NewSessionSlice(w, sid, ref, s);
    }
  }

  lemma NewSessionIdentified(w: World, sid: Sid, ref: Ref)
    requires Identified(w) && sid !in w.cells && ref !in w.refs
    ensures Identified(NewSessionStep(w, sid, ref))
  {
    var w' := NewSessionStep(w, sid, ref);
    forall r | r in w'.refs ensures exists s :: s in w'.cells && w'.cells[s].session.ref == r {
      if r == ref {
        assert w'.cells[sid].session.ref == r;
      } else {
        var s :| s in w.cells && w.cells[s].session.ref == r;
        assert s in w'.cells && w'.cells[s].session.ref == r;
      }
    }
  }

  lemma FreshOk(s: Slice)
    requires s == Slice(FreshSession(s.session.id, s.session.ref), map[], None, [], None, false, false, false)
    ensures SliceOk(s)
  {
  }

  // ----- Getting a lock -------------------------------------------------------------------------------

  lemma LockSlice(w: World, tid: Tid)
    requires Locked(w) && Enabled(w, GetLock(tid)) && w.tasks[tid].sid in w.cells
    requires var x := w.cells[w.tasks[tid].sid].session;
             var e := LockEffect(w, tid);
             KeepsIdentity(x, e) && (e.saved.Some? ==> e.saved.value.hold == x.hold)
    ensures var sid := w.tasks[tid].sid;
            SliceOf(LockStep(w, tid), sid) == Applied(SliceOf(w, sid), LockEffect(w, tid))
  {
    hide LockEffect, Tally, Orders.OrdersFor;
  }

  lemma LockFrame(w: World, tid: Tid)
    requires Inv(w) && Enabled(w, GetLock(tid)) && w.tasks[tid].sid in w.cells
    requires var x := w.cells[w.tasks[tid].sid].session;
             var e := LockEffect(w, tid);
             KeepsIdentity(x, e) && (e.saved.Some? ==> e.saved.value.hold == x.hold)
    ensures OneSession(w, LockStep(w, tid), tid, w.tasks[tid].sid)
  {
    hide LockEffect, Tally, SlicesOk, GoodLines, UpstreamFrame;
    LockUpstream(w, tid);
  }

  lemma LockUpstream(w: World, tid: Tid)
    requires Inv(w) && Enabled(w, GetLock(tid)) && w.tasks[tid].sid in w.cells
    requires w.tasks[tid].sid in LockStep(w, tid).cells
    ensures UpstreamFrame(w, LockStep(w, tid), w.tasks[tid].sid)
  {
    hide LockEffect, Tally, Inv, HoldStatus, Orders.OrdersFor;
    Belongs(w);
  }

  lemma LockKeeps(w: World, tid: Tid)
    requires Inv(w) && Enabled(w, GetLock(tid))
    ensures Inv(LockStep(w, tid))
  {
    hide Enter, Tally, SliceOk, GoodLines;
    var sid := w.tasks[tid].sid;
    if sid !in w.cells {
      UnknownSession(w, tid);
      LocklessTaskKeeps(w, LockStep(w, tid), tid);
    } else {
      EnterOk(SliceOf(w, sid), w.tasks[tid].pc, w.clock);
      LockSlice(w, tid);
      LockFrame(w, tid);
      OneSessionKeeps(w, LockStep(w, tid), tid, sid);
    }
  }

  lemma UnknownSession(w: World, tid: Tid)
    requires Enabled(w, GetLock(tid)) && w.tasks[tid].sid !in w.cells
    ensures LockEffect(w, tid) == Fail(SessionNotFound)
  {
  }

  // ----- Replies ----------------------------------------------------------------------------------------

  ghost predicate RespondsLocked(w: World, tid: Tid, fault: Fault, newId: nat) {
    Inv(w) && CanRespond(w, tid, fault, newId) && HoldsLock(w.tasks[tid].pc)
  }

  function ServedTo(w: World, tid: Tid, fault: Fault, newId: nat): Served
    requires RespondsLocked(w, tid, fault, newId)
  {
    Serve(w, TaskCall(w.tasks[tid]), fault, newId)
  }

  function ReplyEffect(w: World, tid: Tid, fault: Fault, newId: nat): Effect
    requires RespondsLocked(w, tid, fault, newId)
  {
    ServeAnswers(w, TaskCall(w.tasks[tid]), fault, newId);
    Resume(w.tasks[tid].pc, w.tasks[tid].local, ServedTo(w, tid, fault, newId).reply)
  }

  /** The session's slice after a reply. */
  function ReplySlice(w: World, tid: Tid, fault: Fault, newId: nat): Slice
    requires RespondsLocked(w, tid, fault, newId)
  {
    var t := w.tasks[tid];
    var served := ServedTo(w, tid, fault, newId);
    var s := SliceOf(w, t.sid);
    var after := Applied(s, ReplyEffect(w, tid, fault, newId));
    ServeAnswers(w, TaskCall(t), fault, newId);
    var failed := t.pc.AtRelease? && ReleaseFailed(t.pc, served.reply);
    after.(orders := Orders.OrdersFor(served.ecops.orders, s.session.ref),
           hold := HoldStatus(served.ihms, after.session.hold),
           unclean := s.unclean || failed,
           lost := s.lost || (failed && t.local.hold.value !in served.ihms.holds))
  }

  lemma ReplyIdentity(w: World, tid: Tid, fault: Fault, newId: nat)
    requires RespondsLocked(w, tid, fault, newId)
    ensures var t, e := w.tasks[tid], ReplyEffect(w, tid, fault, newId);
            var reply := ServedTo(w, tid, fault, newId).reply;
            && t.local == w.cells[t.sid].session && HolderPc(w, t.sid) == Some(t.pc)
            && SliceOk(SliceOf(w, t.sid))
            && KeepsIdentity(t.local, e)
            && (e.saved.Some? ==>
                  e.saved.value.hold ==
                    (if t.pc.AtCreateHold? && reply.HoldMade? then Some(reply.hold) else t.local.hold))
            && (t.pc.AtCreateHold? && reply.HoldMade? ==> e.saved.Some?)
            && (t.pc.AtCreateHold? ==> t.local.hold.None?)
  {
    hide Serve, Resume, Orders.OrdersFor, GoodLines;
    var t := w.tasks[tid];
    assert SliceOk(SliceOf(w, t.sid));
    ServeAnswers(w, TaskCall(t), fault, newId);
    ResumeKeepsIdentity(t.pc, t.local, ServedTo(w, tid, fault, newId).reply);
  }

  lemma ReplySliceIs(w: World, tid: Tid, fault: Fault, newId: nat)
    requires RespondsLocked(w, tid, fault, newId)
    ensures SliceOf(RespondStep(w, tid, fault, newId), w.tasks[tid].sid) == ReplySlice(w, tid, fault, newId)
  {
    ReplyIdentity(w, tid, fault, newId);
    hide Serve, Resume, Orders.OrdersFor, Inv, Tally, SliceOk, ReleaseNext, Noted;
  }

  /** The fields of the state after a reply. */
  lemma ReplyFields(w: World, tid: Tid, fault: Fault, newId: nat)
    requires RespondsLocked(w, tid, fault, newId)
    ensures var w' := RespondStep(w, tid, fault, newId);
            var t, e, served := w.tasks[tid], ReplyEffect(w, tid, fault, newId), ServedTo(w, tid, fault, newId);
            && w'.ihms == served.ihms && w'.ecops == served.ecops && w'.refs == w.refs
            && w'.issued == w.issued + served.ihms.holds.Keys
            && w'.orphans == w.orphans
               + (if t.pc.AtCreateHold? && served.reply.Failed? then served.ihms.holds.Keys - w.ihms.holds.Keys else {})
            && t.sid in w'.cells && w'.cells == w.cells[t.sid := w'.cells[t.sid]]
            && w'.tasks == w.tasks[tid := Advance(t, e)]
            && var c, c' := w.cells[t.sid], w'.cells[t.sid];
               && c'.session == (if e.saved.Some? then e.saved.value else c.session)
               && c'.recs == (if e.put.Some? then c.recs[e.put.value.0 := e.put.value.1] else c.recs)
               && c'.lock == (if HoldsLock(e.pc) then Some(tid) else None)
               && c.sections != []
               && c'.sections == Noted(c.sections, Exchange(TaskCall(t), served.reply))
               && w'.counters == Tally(w.counters, e.event)
  {
    hide Serve, Resume, Tally, ReleaseFailed, Noted, Inv;
  }

  lemma OneSessionFrom(w: World, w': World, tid: Tid, e: Effect)
    requires tid in w.tasks && HoldsLock(w.tasks[tid].pc)
    requires var t := w.tasks[tid];
             && t.sid in w.cells && w.cells[t.sid].lock == Some(tid) && w.cells[t.sid].session.id == t.sid
             && w.cells[t.sid].session == t.local
             && t.sid in w'.cells && w'.cells == w.cells[t.sid := w'.cells[t.sid]] && w'.refs == w.refs
             && w'.tasks == w.tasks[tid := Advance(t, e)]
             && KeepsIdentity(t.local, e)
             && var c' := w'.cells[t.sid];
             && c'.session == (if e.saved.Some? then e.saved.value else t.local)
             && c'.lock == (if HoldsLock(e.pc) then Some(tid) else None) && c'.sections != []
             && (e.saved.Some? && e.saved.value.hold != t.local.hold ==>
                      t.local.hold.None? && e.saved.value.hold.Some?
                        && e.saved.value.hold.value in w'.issued - w.issued - w'.orphans)
             && UpstreamFrame(w, w', t.sid)
    ensures OneSession(w, w', tid, w.tasks[tid].sid)
  {
    hide UpstreamFrame, GoodLines;
  }

  lemma ReplyFrame(w: World, tid: Tid, fault: Fault, newId: nat)
    requires RespondsLocked(w, tid, fault, newId)
    requires var w' := RespondStep(w, tid, fault, newId);
             UpstreamFrame(w, w', w.tasks[tid].sid)
    requires var t, reply := w.tasks[tid], ServedTo(w, tid, fault, newId).reply;
             t.pc.AtCreateHold? && reply.HoldMade? ==>
               reply.hold in RespondStep(w, tid, fault, newId).issued - w.issued - RespondStep(w, tid, fault,
                 newId).orphans
    ensures OneSession(w, RespondStep(w, tid, fault, newId), tid, w.tasks[tid].sid)
  {
    ReplyIdentity(w, tid, fault, newId);
    ReplyFields(w, tid, fault, newId);
    LockHolder(w, tid, fault, newId);
    hide RespondStep, ServedTo, ReplyEffect, Orders.OrdersFor, Inv, Tally, SliceOk, UpstreamFrame, GoodLines,
      CanRespond, TaskCall, KeepsIdentity, OneSession;
    OneSessionFrom(w, RespondStep(w, tid, fault, newId), tid, ReplyEffect(w, tid, fault, newId));
  }

  lemma LockHolder(w: World, tid: Tid, fault: Fault, newId: nat)
    requires RespondsLocked(w, tid, fault, newId)
    ensures var t := w.tasks[tid];
            && tid in w.tasks && t.sid in w.cells && w.cells[t.sid].lock == Some(tid)
                 && w.cells[t.sid].session.id == t.sid
            && w.cells[t.sid].session == t.local && w.cells[t.sid].sections != []
  {
    hide SliceOk;
  }

  /** What is left to show for each kind of call. */
  lemma ReplyKeeps(w: World, tid: Tid, fault: Fault, newId: nat)
    requires RespondsLocked(w, tid, fault, newId)
    requires UpstreamFrame(w, RespondStep(w, tid, fault, newId), w.tasks[tid].sid)
    requires var t, reply := w.tasks[tid], ServedTo(w, tid, fault, newId).reply;
             t.pc.AtCreateHold? && reply.HoldMade? ==>
               reply.hold in RespondStep(w, tid, fault, newId).issued - w.issued - RespondStep(w, tid, fault,
                 newId).orphans
    requires SliceOk(ReplySlice(w, tid, fault, newId))
    ensures Inv(RespondStep(w, tid, fault, newId))
  {
    hide Inv, RespondStep, UpstreamFrame, SliceOk, ReplySlice;
    ReplyFrame(w, tid, fault, newId);
    ReplySliceIs(w, tid, fault, newId);
    InvOf(w, tid, fault, newId);
    OneSessionKeeps(w, RespondStep(w, tid, fault, newId), tid, w.tasks[tid].sid);
  }

  lemma InvOf(w: World, tid: Tid, fault: Fault, newId: nat)
    requires RespondsLocked(w, tid, fault, newId)
    ensures Inv(w) && CanRespond(w, tid, fault, newId) && tid in w.tasks && w.tasks[tid].sid in w.cells
  {
  }

  // The frame conditions, from what a service call leaves of the upstream state.

  lemma KeptHoldsFrame(w: World, w': World, sid: Sid)
    requires HoldsBelong(w) && OrdersBelong(w') && sid in w.cells && sid in w'.cells
    requires w'.ihms.holds.Keys <= w.ihms.holds.Keys
    requires w'.issued == w.issued + w'.ihms.holds.Keys && w'.orphans == w.orphans
    requires forall h: HoldId :: w.cells[sid].session.hold != Some(h) ==>
               HoldStatus(w'.ihms, Some(h)) == HoldStatus(w.ihms, Some(h))
    requires forall r :: r != w.cells[sid].session.ref ==>
               Orders.OrdersFor(w'.ecops.orders, r) == Orders.OrdersFor(w.ecops.orders, r)
    ensures UpstreamFrame(w, w', sid)
  {
    hide Orders.OrdersFor, HoldStatus;
    assert forall h :: h in w'.ihms.holds ==> h in w.ihms.holds.Keys;
  }

  lemma MadeHoldFrame(w: World, w': World, sid: Sid, newId: HoldId)
    requires HoldsBelong(w) && OrdersBelong(w) && sid in w.cells && sid in w'.cells && newId !in w.issued
    requires w'.ecops == w.ecops && w'.refs == w.refs
    requires w'.ihms.holds == w.ihms.holds ||
             (newId in w'.ihms.holds && w'.ihms.holds == w.ihms.holds[newId := w'.ihms.holds[newId]])
    requires w'.issued == w.issued + w'.ihms.holds.Keys
    requires newId in w'.ihms.holds ==>
               (w'.orphans == w.orphans && w'.cells[sid].session.hold == Some(newId))
               || w'.orphans == w.orphans + (w'.ihms.holds.Keys - w.ihms.holds.Keys)
    requires newId !in w'.ihms.holds ==> w'.orphans == w.orphans
    ensures UpstreamFrame(w, w', sid)
  {
    hide Orders.OrdersFor;
    assert newId !in w.ihms.holds.Keys;
    if newId in w'.ihms.holds {
      assert w'.ihms.holds.Keys == w.ihms.holds.Keys + {newId};
      assert w'.ihms.holds.Keys - w.ihms.holds.Keys == {newId};
    }
  }

  /** Nothing upstream changed. */
  lemma QuietFrame(w: World, tid: Tid, fault: Fault, newId: nat)
    requires RespondsLocked(w, tid, fault, newId)
    requires var served := ServedTo(w, tid, fault, newId); served.ihms == w.ihms && served.ecops == w.ecops
    ensures UpstreamFrame(w, RespondStep(w, tid, fault, newId), w.tasks[tid].sid)
  {
    hide RespondsLocked, RespondStep, ServedTo, ReplyEffect, SliceOk, UpstreamFrame, GoodLines, Orders.OrdersFor,
      CanRespond, TaskCall, Tally, Inv, Noted, HoldsBelong, HoldStatus, Locked;
    ReplyIdentity(w, tid, fault, newId);
    ReplyFields(w, tid, fault, newId);
    LockHolder(w, tid, fault, newId);
    InvOf(w, tid, fault, newId);
    Belongs(w);
    KeptHoldsFrame(w, RespondStep(w, tid, fault, newId), w.tasks[tid].sid);
  }

  lemma Belongs(w: World)
    requires Inv(w)
    ensures w.ihms.holds.Keys <= w.issued && OrdersBelong(w) && HoldsBelong(w) && w.orphans <= w.issued
    ensures w.issued + w.ihms.holds.Keys == w.issued
    ensures forall h :: h in w.ihms.holds ==> h in w.issued
  {
  }

  /** The slice after a reply that leaves the hold alone. */
  lemma HoldAsideSlice(w: World, tid: Tid, fault: Fault, newId: nat)
    requires RespondsLocked(w, tid, fault, newId)
    requires var pc := w.tasks[tid].pc; pc.AtStock? || pc.AtLookup? || pc.AtPost?
    requires ServedTo(w, tid, fault, newId).ihms == w.ihms
    ensures var t, s, served := w.tasks[tid], SliceOf(w, w.tasks[tid].sid), ServedTo(w, tid, fault, newId);
            && s.at == Some(t.pc) && s.session == t.local && t.local == w.cells[t.sid].session && SliceOk(s)
            && t.local.ref in w.refs && OrdersBelong(w)
            && served == Serve(w, TaskCall(t), fault, newId) && Plausible(w, TaskCall(t), fault, newId)
            && Answers(CallOf(t.pc, s.session), served.reply)
            && ReplySlice(w, tid, fault, newId)
                 == Applied(s, Resume(t.pc, s.session, served.reply)).(orders :=
                   Orders.OrdersFor(served.ecops.orders, s.session.ref))
  {
    hide Serve, SliceOk, Orders.OrdersFor, Tally, Resume, ReleaseFailed;
    ReplyIdentity(w, tid, fault, newId);
    ServeAnswers(w, TaskCall(w.tasks[tid]), fault, newId);
  }

  lemma StockReplyKeeps(w: World, tid: Tid, fault: Fault, newId: nat)
    requires RespondsLocked(w, tid, fault, newId) && w.tasks[tid].pc.AtStock?
    ensures Inv(RespondStep(w, tid, fault, newId))
  {
    hide RespondsLocked, Inv, SliceOk, AfterStock, RespondStep, UpstreamFrame, ReplySlice, CanRespond;
    InvOf(w, tid, fault, newId);
    StockServed(w, tid, fault, newId);
    HoldAsideSlice(w, tid, fault, newId);
    StockOk(SliceOf(w, w.tasks[tid].sid), ServedTo(w, tid, fault, newId).reply);
    QuietFrame(w, tid, fault, newId);
    ReplyKeeps(w, tid, fault, newId);
  }

  lemma StockServed(w: World, tid: Tid, fault: Fault, newId: nat)
    requires RespondsLocked(w, tid, fault, newId) && w.tasks[tid].pc.AtStock?
    ensures ServedTo(w, tid, fault, newId).ihms == w.ihms && ServedTo(w, tid, fault, newId).ecops == w.ecops
  {
    hide Inv;
  }

  lemma OrderServed(w: World, tid: Tid, fault: Fault, newId: nat)
    requires RespondsLocked(w, tid, fault, newId) && (w.tasks[tid].pc.AtLookup? || w.tasks[tid].pc.AtPost?)
    ensures ServedTo(w, tid, fault, newId).ihms == w.ihms
    ensures w.tasks[tid].pc.AtLookup? ==> ServedTo(w, tid, fault, newId).ecops == w.ecops
  {
    hide Inv, Orders.CreateOrderAt, Orders.FirstFor;
  }

  lemma LookupReplyKeeps(w: World, tid: Tid, fault: Fault, newId: nat)
    requires RespondsLocked(w, tid, fault, newId) && w.tasks[tid].pc.AtLookup?
    ensures Inv(RespondStep(w, tid, fault, newId))
  {
    hide RespondsLocked, Inv, SliceOk, Resume, RespondStep, UpstreamFrame, ReplySlice, CanRespond, Serve, ServedTo,
      LookupServed, SliceOf;
    InvOf(w, tid, fault, newId);
    OrderServed(w, tid, fault, newId);
    HoldAsideSlice(w, tid, fault, newId);
    var sid := w.tasks[tid].sid;
    SliceFields(w, sid);
    FindServed(w, sid, fault, newId);
    LookupOk(SliceOf(w, sid), ServedTo(w, tid, fault, newId).reply);
    QuietFrame(w, tid, fault, newId);
    ReplyKeeps(w, tid, fault, newId);
  }

  lemma SliceFields(w: World, sid: Sid)
    requires sid in w.cells
    ensures SliceOf(w, sid).orders == Orders.OrdersFor(w.ecops.orders, w.cells[sid].session.ref)
    ensures SliceOf(w, sid).session == w.cells[sid].session
  {
  }

  lemma OrdersStillBelong(w: World, orders: seq<Order>, order: Order)
    requires OrdersBelong(w) && order.body.ref in w.refs && forall o :: o in w.ecops.orders ==> o.id != order.id
    requires orders == w.ecops.orders || orders == w.ecops.orders + [order]
    ensures (forall o :: o in orders ==> o.body.ref in w.refs) && Orders.DistinctIds(orders)
  {
  }

  lemma PostReplyKeeps(w: World, tid: Tid, fault: Fault, newId: nat)
    requires RespondsLocked(w, tid, fault, newId) && w.tasks[tid].pc.AtPost?
    ensures Inv(RespondStep(w, tid, fault, newId))
  {
    hide RespondsLocked, Inv, SliceOk, AfterPost, RespondStep, UpstreamFrame, ReplySlice, CanRespond, Serve,
      ServedTo, PostServed, SliceOf, OrdersBelong, Plausible, Orders.OrdersFor;
    InvOf(w, tid, fault, newId);
    OrderServed(w, tid, fault, newId);
    HoldAsideSlice(w, tid, fault, newId);
    var t := w.tasks[tid];
    SliceFields(w, t.sid);
    var body := OrderPayload(t.local, t.pc.customer);
    var served := ServedTo(w, tid, fault, newId);
    PostIsServed(w, t.sid, body, t.pc.key, fault, newId);
    FreshOrder(w, PostOrder(body, t.pc.key), fault, newId);
    OrdersStillBelong(w, served.ecops.orders, Order(newId, body));
    PostOk(SliceOf(w, t.sid), ReplySlice(w, tid, fault, newId).orders, served.reply);
    PostFrame(w, tid, fault, newId);
    ReplyKeeps(w, tid, fault, newId);
  }

  lemma FreshOrder(w: World, call: Call, fault: Fault, newId: nat)
    requires call.PostOrder? && Plausible(w, call, fault, newId)
    ensures forall o :: o in w.ecops.orders ==> o.id != newId
  {
  }

  lemma PostFrame(w: World, tid: Tid, fault: Fault, newId: nat)
    requires RespondsLocked(w, tid, fault, newId)
    requires var served := ServedTo(w, tid, fault, newId);
             && served.ihms == w.ihms
             && (forall o :: o in served.ecops.orders ==> o.body.ref in w.refs)
                  && Orders.DistinctIds(served.ecops.orders)
             && forall r :: r != w.tasks[tid].local.ref ==>
                  Orders.OrdersFor(served.ecops.orders, r) == Orders.OrdersFor(w.ecops.orders, r)
    ensures UpstreamFrame(w, RespondStep(w, tid, fault, newId), w.tasks[tid].sid)
  {
    hide RespondsLocked, RespondStep, ServedTo, ReplyEffect, SliceOk, UpstreamFrame, GoodLines, Orders.OrdersFor,
      CanRespond, TaskCall, Tally, Inv, Noted, HoldsBelong, HoldStatus, Locked;
    ReplyIdentity(w, tid, fault, newId);
    ReplyFields(w, tid, fault, newId);
    LockHolder(w, tid, fault, newId);
    InvOf(w, tid, fault, newId);
    Belongs(w);
    KeptHoldsFrame(w, RespondStep(w, tid, fault, newId), w.tasks[tid].sid);
  }

  /** Only the session's own hold changed upstream. */
  lemma OwnHoldFrame(w: World, tid: Tid, fault: Fault, newId: nat)
    requires RespondsLocked(w, tid, fault, newId) && (w.tasks[tid].pc.AtFulfill? || w.tasks[tid].pc.AtRelease?)
    requires var served := ServedTo(w, tid, fault, newId);
             && served.ecops == w.ecops
             && served.ihms.holds.Keys <= w.ihms.holds.Keys
             && forall h :: h != w.tasks[tid].local.hold.value ==>
                  HoldStatus(served.ihms, Some(h)) == HoldStatus(w.ihms, Some(h))
    ensures UpstreamFrame(w, RespondStep(w, tid, fault, newId), w.tasks[tid].sid)
  {
    hide RespondsLocked, RespondStep, ServedTo, ReplyEffect, SliceOk, UpstreamFrame, GoodLines, Orders.OrdersFor,
      CanRespond, TaskCall, Tally, Inv, Noted, HoldsBelong, HoldStatus, Locked;
    ReplyIdentity(w, tid, fault, newId);
    ReplyFields(w, tid, fault, newId);
    LockHolder(w, tid, fault, newId);
    InvOf(w, tid, fault, newId);
    Belongs(w);
    KeptHoldsFrame(w, RespondStep(w, tid, fault, newId), w.tasks[tid].sid);
  }

  lemma HoldCall(w: World, tid: Tid, fault: Fault, newId: nat)
    requires RespondsLocked(w, tid, fault, newId) && (w.tasks[tid].pc.AtFulfill? || w.tasks[tid].pc.AtRelease?)
    ensures var t := w.tasks[tid];
            && t.sid in w.cells && t.local == w.cells[t.sid].session && t.local.hold.Some?
            && SliceOk(SliceOf(w, t.sid)) && SliceOf(w, t.sid).at == Some(t.pc)
            && var call := if t.pc.AtFulfill? then FulfillHold(t.local.hold.value) else ReleaseHold(t.local.hold.value);
               ServedTo(w, tid, fault, newId) == Serve(w, call, fault, newId) && Plausible(w, call, fault, newId)
  {
    hide Serve, Resume, SliceOk;
    ReplyIdentity(w, tid, fault, newId);
  }

  lemma HoldAnswered(w: World, tid: Tid, fault: Fault, newId: nat)
    requires RespondsLocked(w, tid, fault, newId) && (w.tasks[tid].pc.AtFulfill? || w.tasks[tid].pc.AtRelease?)
    ensures var t, s, reply := w.tasks[tid], SliceOf(w, w.tasks[tid].sid), ServedTo(w, tid, fault, newId).reply;
            && (reply.Failed? || reply.Accepted?)
            && s.at == Some(t.pc) && s.session == t.local && t.local.hold.Some?
            && Answers(CallOf(t.pc, t.local), reply)
                 && ReplyEffect(w, tid, fault, newId) == Resume(t.pc, t.local, reply)
  {
    ReplyIdentity(w, tid, fault, newId);
    hide Serve, Resume, SliceOk, Inv, Orders.OrdersFor, Plausible, KeepsIdentity, HoldStatus;
    ServeAnswers(w, TaskCall(w.tasks[tid]), fault, newId);
  }

  /** The slice after a reply about the hold. */
  lemma HoldReplySlice(w: World, tid: Tid, fault: Fault, newId: nat, s: Slice, e: Effect, served: Served)
    requires RespondsLocked(w, tid, fault, newId) && s == SliceOf(w, w.tasks[tid].sid)
    requires served == ServedTo(w, tid, fault, newId)
    requires e == ReplyEffect(w, tid, fault, newId) && served.ecops == w.ecops
    requires (served.reply.Failed? || served.reply.Accepted?) && s.session == w.tasks[tid].local && s.session.hold.Some?
    ensures var failed := ReleaseFailed(w.tasks[tid].pc, served.reply);
            ReplySlice(w, tid, fault, newId)
              == Applied(s, e).(hold := HoldStatus(served.ihms, s.session.hold), unclean := s.unclean || failed,
                                lost := s.lost || (failed && s.session.hold.value !in served.ihms.holds))
  {
    ReplyIdentity(w, tid, fault, newId);
    SliceFields(w, w.tasks[tid].sid);
    hide Serve, Resume, SliceOk, Inv, HoldStatus, Orders.OrdersFor, ReleaseNext, SliceOf, CanRespond;
  }

  lemma FulfillSlice(w: World, tid: Tid, fault: Fault, newId: nat, s: Slice, e: Effect, served: Served)
    requires RespondsLocked(w, tid, fault, newId) && s == SliceOf(w, w.tasks[tid].sid)
    requires served == ServedTo(w, tid, fault, newId)
    requires w.tasks[tid].pc.AtFulfill? && e == ReplyEffect(w, tid, fault, newId) && served.ecops == w.ecops
    ensures ReplySlice(w, tid, fault, newId) == Applied(s, e).(hold := HoldStatus(served.ihms, s.session.hold))
  {
    hide RespondsLocked, ServedTo, SliceOf, ReplySlice, Resume, HoldStatus, ReleaseNext, ReplyEffect;
    HoldAnswered(w, tid, fault, newId);
    HoldReplySlice(w, tid, fault, newId, s, e, served);
  }

  lemma ReleaseSlice(w: World, tid: Tid, fault: Fault, newId: nat, s: Slice, e: Effect, served: Served,
                     next: Progress<Release>)
    requires RespondsLocked(w, tid, fault, newId) && s == SliceOf(w, w.tasks[tid].sid)
    requires served == ServedTo(w, tid, fault, newId)
    requires w.tasks[tid].pc.AtRelease? && e == ReplyEffect(w, tid, fault, newId) && served.ecops == w.ecops
    requires served.reply.Failed? || served.reply.Accepted?
    requires next == ReleaseNext(w.tasks[tid].pc.attempt, MAX_RETRIES, served.reply)
    ensures var hold := HoldStatus(served.ihms, s.session.hold);
            var failed := next.Ended? && next.result != Ok(true);
            ReplySlice(w, tid, fault, newId)
              == Applied(s, e).(hold := hold, unclean := s.unclean || failed, lost := s.lost || (failed && hold.None?))
  {
    hide RespondsLocked, ServedTo, SliceOf, ReplySlice, Resume, ReleaseNext, ReplyEffect;
    HoldAnswered(w, tid, fault, newId);
    HoldReplySlice(w, tid, fault, newId, s, e, served);
  }

  lemma FulfillReplyKeeps(w: World, tid: Tid, fault: Fault, newId: nat)
    requires RespondsLocked(w, tid, fault, newId) && w.tasks[tid].pc.AtFulfill?
    ensures Inv(RespondStep(w, tid, fault, newId))
  {
    HoldCall(w, tid, fault, newId);
    hide Inv, SliceOk, Resume, RespondStep, Serve, ServedTo, ReplySlice, CanRespond, HoldStatus, FulfillServed,
      UpstreamFrame, SliceOf;
    var t := w.tasks[tid];
    var served := ServedTo(w, tid, fault, newId);
    FulfillIsServed(w, t.sid, fault, newId);
    OwnHoldFrame(w, tid, fault, newId);
    HoldAnswered(w, tid, fault, newId);
    FulfillSlice(w, tid, fault, newId, SliceOf(w, t.sid), ReplyEffect(w, tid, fault, newId), served);
    FulfillOk(SliceOf(w, t.sid), HoldStatus(served.ihms, t.local.hold), served.reply);
    ReplyKeeps(w, tid, fault, newId);
  }

  lemma ReleaseReplyKeeps(w: World, tid: Tid, fault: Fault, newId: nat)
    requires RespondsLocked(w, tid, fault, newId) && w.tasks[tid].pc.AtRelease?
    ensures Inv(RespondStep(w, tid, fault, newId))
  {
    HoldCall(w, tid, fault, newId);
    hide Inv, SliceOk, Resume, RespondStep, Serve, ServedTo, ReplySlice, CanRespond, HoldStatus, ReleaseServed,
      UpstreamFrame, SliceOf, ReleaseNext;
    var t := w.tasks[tid];
    var served := ServedTo(w, tid, fault, newId);
    ReleaseIsServed(w, t.sid, fault, newId);
    OwnHoldFrame(w, tid, fault, newId);
    HoldAnswered(w, tid, fault, newId);
    var next := ReleaseNext(t.pc.attempt, MAX_RETRIES, served.reply);
    ReleaseSlice(w, tid, fault, newId, SliceOf(w, t.sid), ReplyEffect(w, tid, fault, newId), served, next);
    ReleaseOk(SliceOf(w, t.sid), HoldStatus(served.ihms, t.local.hold), served.reply);
    ReplyKeeps(w, tid, fault, newId);
  }

  lemma CreateFresh(w: World, tid: Tid, fault: Fault, newId: nat)
    requires RespondsLocked(w, tid, fault, newId) && w.tasks[tid].pc.AtCreateHold?
    ensures newId !in w.issued && newId !in w.ihms.holds && w.tasks[tid].sid in w.cells
    ensures GoodLines(w.tasks[tid].pc.lines)
    ensures SliceOf(w, w.tasks[tid].sid).at == Some(w.tasks[tid].pc)
    ensures w.tasks[tid].local == w.cells[w.tasks[tid].sid].session
    ensures ServedTo(w, tid, fault, newId) == Serve(w, CreateHold(HoldItems(w.tasks[tid].pc.lines)), fault, newId)
  {
    hide Serve, GoodLines;
    assert SliceOk(SliceOf(w, w.tasks[tid].sid));
  }

  lemma CreateFrame(w: World, tid: Tid, fault: Fault, newId: nat)
    requires RespondsLocked(w, tid, fault, newId) && w.tasks[tid].pc.AtCreateHold?
    requires var served := ServedTo(w, tid, fault, newId);
             && served.ecops == w.ecops
             && (served.ihms.holds == w.ihms.holds ||
                 (newId in served.ihms.holds && served.ihms.holds == w.ihms.holds[newId := served.ihms.holds[newId]]))
             && (served.reply.HoldMade? ==> served.reply.hold == newId && newId in served.ihms.holds)
             && (served.reply.HoldMade? || served.reply.Failed?)
    ensures UpstreamFrame(w, RespondStep(w, tid, fault, newId), w.tasks[tid].sid)
    ensures ServedTo(w, tid, fault, newId).reply.HoldMade? ==>
              newId in RespondStep(w, tid, fault, newId).issued - w.issued - RespondStep(w, tid, fault, newId).orphans
  {
    hide RespondsLocked, RespondStep, ServedTo, ReplyEffect, SliceOk, UpstreamFrame, GoodLines, Orders.OrdersFor,
      CanRespond, TaskCall, Tally, Inv, Noted, OrdersBelong, HoldsBelong, HoldStatus, Locked;
    ReplyIdentity(w, tid, fault, newId);
    ReplyFields(w, tid, fault, newId);
    LockHolder(w, tid, fault, newId);
    InvOf(w, tid, fault, newId);
    CreateFresh(w, tid, fault, newId);
    Belongs(w);
    MadeHoldFrame(w, RespondStep(w, tid, fault, newId), w.tasks[tid].sid, newId);
  }

  lemma CreateReplyKeeps(w: World, tid: Tid, fault: Fault, newId: nat)
    requires RespondsLocked(w, tid, fault, newId) && w.tasks[tid].pc.AtCreateHold?
    ensures Inv(RespondStep(w, tid, fault, newId))
  {
    hide RespondsLocked, Inv, SliceOk, RespondStep, Serve, AfterCreateHold, CanRespond, ServedTo, UpstreamFrame,
      SliceOf, GoodLines, ReplySlice;
    InvOf(w, tid, fault, newId);
    CreateFresh(w, tid, fault, newId);
    var t := w.tasks[tid];
    var served := ServedTo(w, tid, fault, newId);
    assert Positive(HoldItems(t.pc.lines)) by { GoodIsPositive(t.pc.lines); }
    CreateIsServed(w, HoldItems(t.pc.lines), fault, newId);
    CreateFrame(w, tid, fault, newId);
    CreateSlice(w, tid, fault, newId);
    CreateHoldOk(SliceOf(w, t.sid), served.reply);
    ReplyKeeps(w, tid, fault, newId);
  }

  lemma GoodIsPositive(lines: seq<Line>)
    requires GoodLines(lines)
    ensures Positive(HoldItems(lines))
  {
  }

  lemma CreateSlice(w: World, tid: Tid, fault: Fault, newId: nat)
    requires RespondsLocked(w, tid, fault, newId) && w.tasks[tid].pc.AtCreateHold?
    requires var served := ServedTo(w, tid, fault, newId);
             && served.ecops == w.ecops
             && (served.reply.HoldMade? ==>
                  served.reply.hold == newId && newId in served.ihms.holds && served.ihms.holds[newId].status == Active)
             && (served.reply.HoldMade? || served.reply.Failed?)
    ensures var s, reply, pc := SliceOf(w, w.tasks[tid].sid), ServedTo(w, tid, fault, newId).reply, w.tasks[tid].pc;
            && SliceOk(s) && s.at == Some(pc)
            && var after := Applied(s, AfterCreateHold(pc.lines, pc.customer, pc.next, s.session, reply));
               ReplySlice(w, tid, fault, newId) == if reply.HoldMade? then after.(hold := Some(Active)) else after
  {
    ReplyIdentity(w, tid, fault, newId);
    hide Serve, SliceOk, Inv, Orders.OrdersFor, Tally, GoodLines;
    assert SliceOf(w, w.tasks[tid].sid).session == w.tasks[tid].local;
  }

  lemma RespondKeeps(w: World, tid: Tid, fault: Fault, newId: nat)
    requires Inv(w) && CanRespond(w, tid, fault, newId)
    ensures Inv(RespondStep(w, tid, fault, newId))
  {
    hide Inv, RespondStep;
    var pc := w.tasks[tid].pc;
    if !HoldsLock(pc) {
      GateReplyKeeps(w, tid, fault, newId);
    } else {
      match pc
      case AtStock(_, _, _) => StockReplyKeeps(w, tid, fault, newId);
      case AtCreateHold(_, _, _) => CreateReplyKeeps(w, tid, fault, newId);
      case AtLookup(_, _, _) => LookupReplyKeeps(w, tid, fault, newId);
      case AtPost(_, _) => PostReplyKeeps(w, tid, fault, newId);
      case AtFulfill(_, _) => FulfillReplyKeeps(w, tid, fault, newId);
      case AtRelease(_, _) => ReleaseReplyKeeps(w, tid, fault, newId);
    }
  }

  lemma GateReplyKeeps(w: World, tid: Tid, fault: Fault, newId: nat)
    requires Inv(w) && CanRespond(w, tid, fault, newId) && !HoldsLock(w.tasks[tid].pc)
    ensures Inv(RespondStep(w, tid, fault, newId))
  {
    hide Tally, SlicesOk, GoodLines, Locked;
    Belongs(w);
    LocklessTaskKeeps(w, RespondStep(w, tid, fault, newId), tid);
  }

  // ----- Every reachable state ------------------------------------------------------------------------

  lemma InitOk(w: World)
    requires Init(w)
    ensures Inv(w)
  {
  }

  lemma NextKeeps(w: World, w': World)
    requires Inv(w) && Next(w, w')
    ensures Inv(w')
  {
    var step :| Enabled(w, step) && w' == Take(w, step);
    StepKeeps(w, step);
  }

  lemma StepKeeps(w: World, step: Step)
    requires Inv(w) && Enabled(w, step)
    ensures Inv(Take(w, step))
  {
    hide Inv, RespondStep, LockStep, StartStep, NewSessionStep;
    match step
    case NewSession(sid, ref) => NewSessionKeeps(w, sid, ref);
    case StartOp(tid, sid, op, catalog) => StartKeeps(w, tid, sid, op, catalog);
    case GetLock(tid) => LockKeeps(w, tid);
    case Respond(tid, fault, newId) => RespondKeeps(w, tid, fault, newId);
    case Tick(elapsed) => TickKeeps(w, elapsed);
  }

  lemma TickKeeps(w: World, elapsed: nat)
    requires Inv(w)
    ensures Inv(w.(clock := w.clock + elapsed))
  {
    hide SliceOk, GoodLines, Orders.OrdersFor, HoldStatus;
    forall s | s in w.cells ensures SliceOf(w.(clock := w.clock + elapsed), s) == SliceOf(w, s) {
    }
  }

  lemma {:induction false} RunKeeps(ws: seq<World>, i: nat)
    requires IsRun(ws) && i < |ws|
    ensures Inv(ws[i])
  {
    hide Inv, Init, Next;
    if i == 0 {
      InitOk(ws[0]);
    } else {
      RunKeeps(ws, i - 1);
      NextKeeps(ws[i - 1], ws[i]);
    }
  }

  lemma ReachableOk(w: World)
    requires Reachable(w)
    ensures Inv(w)
  {
    var ws :| IsRun(ws) && ws[|ws| - 1] == w;
    RunKeeps(ws, |ws| - 1);
  }
}
