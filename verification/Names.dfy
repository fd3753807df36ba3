/** Where an order comes from: the confirm section that posted it, and the name it carries. */
module Names {
  import opened Models
  import opened Gateways
  import Orders
  import opened Cart
  import opened Metrics
  import opened Program
  import opened Sections
  import opened Slices
  import opened World
  import opened Reach
  import opened Lifecycle
  import opened Scripts

  /** Call `i` of section `k` posted this body; the section confirmed with the key of the POST, under the name
      in the body. */
  ghost predicate PostedAt(c: Cell, body: OrderBody, k: nat, i: nat) {
    && k < |c.sections| && i < |c.sections[k].trace|
    && c.sections[k].pc.AtConfirmLock?
    && c.sections[k].trace[i].call == PostOrder(body, c.sections[k].pc.key)
    && Under(c.sections[k].pc.customerArg, c.session, body.customer)
  }

  ghost predicate PostedIn(c: Cell, body: OrderBody) {
    exists k: nat, i: nat :: PostedAt(c, body, k, i)
  }

  /** The section now open confirms with the name and the key of the POST that is to come. */
  ghost predicate Opened(c: Cell, pc: Pc)
    requires BeforeOrAtPost(pc)
  {
    && c.sections != []
    && var opening := c.sections[|c.sections| - 1].pc;
       && opening.AtConfirmLock?
       && opening.key == (if pc.AtPost? then pc.key else pc.lookup.key)
       && Under(opening.customerArg, c.session, if pc.AtPost? then pc.customer else pc.lookup.customer)
  }

  ghost predicate Posting(w: World, t: Tid) {
    t in w.tasks && BeforeOrAtPost(w.tasks[t].pc)
  }

  ghost predicate Signed(w: World) {
    && (forall s, o :: s in w.cells && o in w.ecops.orders && o.body.ref == w.cells[s].session.ref ==>
          PostedIn(w.cells[s], o.body))
    && (forall t :: Posting(w, t) ==> w.tasks[t].sid in w.cells && Opened(w.cells[w.tasks[t].sid], w.tasks[t].pc))
  }

  // ----- What one effect does ----------------------------------------------------------------------------

  lemma EnterPosting(pc: Pc, x: Option<Session>, cached: Option<Record>, now: int)
    requires WantsLock(pc)
    ensures var e := Enter(pc, x, cached, now);
            BeforeOrAtPost(e.pc) ==>
              && x.Some? && pc.AtConfirmLock? && e.saved.None?
              && e.pc.AtLookup? && e.pc.lookup.key == pc.key && Under(pc.customerArg, x.value, e.pc.lookup.customer)
  {
  }

  lemma ResumePosting(pc: Pc, x: Session, reply: Reply)
    requires AwaitsCall(pc) && (pc.AtFulfill? || pc.AtRelease? ==> x.hold.Some?) && Answers(CallOf(pc, x), reply)
    ensures var e := Resume(pc, x, reply);
            BeforeOrAtPost(e.pc) ==>
              && pc.AtLookup? && pc.lookup.BeforePost? && e.saved.None?
              && (e.pc.AtPost? ==> e.pc.customer == pc.lookup.customer && e.pc.key == pc.lookup.key)
              && (e.pc.AtLookup? ==> e.pc.lookup == pc.lookup)
  {
  }

  /** Only a POST adds an order, and it adds the one it posts. */
  lemma ServeAdds(w: World, call: Call, fault: Fault, newId: nat, o: Order)
    requires o in Serve(w, call, fault, newId).ecops.orders && o !in w.ecops.orders
    ensures call.PostOrder? && o.body == call.body
  {
  }

  lemma AddedKeepsPosts(c: Cell, c': Cell, x: Section, body: OrderBody)
    requires PostedIn(c, body) && c'.sections == c.sections + [x] && c'.session.customer == c.session.customer
    ensures PostedIn(c', body)
  {
    var k: nat, i: nat :| PostedAt(c, body, k, i);
    assert PostedAt(c', body, k, i);
  }

  lemma NotedKeepsPosts(c: Cell, c': Cell, y: Exchange, body: OrderBody)
    requires PostedIn(c, body) && c.sections != []
    requires c'.sections == Noted(c.sections, y) && c'.session.customer == c.session.customer
    ensures PostedIn(c', body)
  {
    var k: nat, i: nat :| PostedAt(c, body, k, i);
    assert PostedAt(c', body, k, i);
  }

  lemma NotedPosts(c: Cell, c': Cell, pc: Pc, y: Exchange, body: OrderBody)
    requires pc.AtPost? && Opened(c, pc) && y.call == PostOrder(body, pc.key) && body.customer == pc.customer
    requires c'.sections == Noted(c.sections, y) && c'.session.customer == c.session.customer
    ensures PostedIn(c', body)
  {
    var n := |c.sections| - 1;
    assert PostedAt(c', body, n, |c.sections[n].trace|);
  }

  lemma OpenedAdded(c: Cell, c': Cell, x: Section, pc: Pc)
    requires c'.sections == c.sections + [x] && x.pc.AtConfirmLock? && pc.AtLookup? && pc.lookup.BeforePost?
    requires pc.lookup.key == x.pc.key && Under(x.pc.customerArg, c'.session, pc.lookup.customer)
    ensures Opened(c', pc)
  {
  }

  lemma OpenedNoted(c: Cell, c': Cell, y: Exchange, pc: Pc, pc': Pc)
    requires pc.AtLookup? && pc.lookup.BeforePost? && Opened(c, pc)
    requires pc'.AtPost? ==> pc'.customer == pc.lookup.customer && pc'.key == pc.lookup.key
    requires pc'.AtLookup? ==> pc'.lookup == pc.lookup
    requires BeforeOrAtPost(pc') && c'.sections == Noted(c.sections, y) && c'.session == c.session
    ensures Opened(c', pc')
  {
  }

  // ----- One step ------------------------------------------------------------------------------------------

  /** A session that has an order, or for which one is to be posted, keeps its name. */
  lemma NameKept(w: World, step: Step, s: Sid)
    requires Inv(w) && Enabled(w, step) && s in w.cells
    ensures s in Take(w, step).cells && Take(w, step).cells[s].session.ref == w.cells[s].session.ref
    ensures w.cells[s].session.state != Created ==>
              Take(w, step).cells[s].session.customer == w.cells[s].session.customer
  {
    hide Inv, Take, Enabled;
    StepEvolves(w, step, s);
  }

  lemma InvSlice(w: World, s: Sid)
    requires Inv(w) && s in w.cells
    ensures SliceOk(SliceOf(w, s))
  {
    hide SliceOk, SliceOf;
  }

  lemma OrderedIsHeld(w: World, s: Sid, o: Order)
    requires Inv(w) && s in w.cells && o in w.ecops.orders && o.body.ref == w.cells[s].session.ref
    ensures w.cells[s].session.state != Created
  {
    hide Inv;
    InvSlice(w, s);
    Orders.OrdersForMeans(w.ecops.orders, o.body.ref);
  }

  /** A task that is to post has its session's lock, and the session is HELD. */
  lemma PostingIsHeld(w: World, t: Tid)
    requires Inv(w) && Posting(w, t)
    ensures HoldsLock(w.tasks[t].pc) && w.tasks[t].sid in w.cells
    ensures var c := w.cells[w.tasks[t].sid];
            c.lock == Some(t) && c.session.state == Held && w.tasks[t].local == c.session && c.sections != []
  {
    hide SlicesOk, GoodLines, HoldTracked, Ordered, HoldsBelong, Identified, OrdersBelong;
    assert w.tasks[t].sid in w.cells;
    InvSlice(w, w.tasks[t].sid);
  }

  lemma SameRef(w: World, s: Sid, t: Sid)
    requires Inv(w) && s in w.cells && t in w.cells && w.cells[s].session.ref == w.cells[t].session.ref
    ensures s == t
  {
  }

  /** Two worlds with the same cells and orders, and no new task that is to post. */
  lemma SameSigned(w: World, w': World)
    requires Signed(w) && w'.cells == w.cells && w'.ecops.orders == w.ecops.orders
    requires forall t :: Posting(w', t) ==> Posting(w, t) && w'.tasks[t] == w.tasks[t]
    ensures Signed(w')
  {
  }

  lemma StartSigned(w: World, tid: Tid, sid: Sid, op: Op, catalog: Catalog)
    requires Inv(w) && Signed(w) && tid !in w.tasks
    ensures Signed(StartStep(w, tid, sid, op, catalog))
  {
    hide Inv, Start, Signed;
    StartKeeps(w, tid, sid, op, catalog);
    StartShape(op, catalog, SessionOf(w, sid), RecordAt(w, sid, OpKey(op)));
    SameSigned(w, StartStep(w, tid, sid, op, catalog));
  }

  lemma NewSigned(w: World, sid: Sid, ref: Ref)
    requires Inv(w) && Signed(w) && Enabled(w, NewSession(sid, ref))
    ensures Signed(NewSessionStep(w, sid, ref))
  {
    hide SlicesOk, HoldsBelong, Locked, PostedIn, Opened;
    var w' := NewSessionStep(w, sid, ref);
    forall s, o | s in w'.cells && o in w'.ecops.orders && o.body.ref == w'.cells[s].session.ref
      ensures PostedIn(w'.cells[s], o.body)
    {
      assert o.body.ref in w.refs && s != sid;
    }
  }

  lemma GateSigned(w: World, tid: Tid, fault: Fault, newId: nat)
    requires Inv(w) && Signed(w) && CanRespond(w, tid, fault, newId) && !HoldsLock(w.tasks[tid].pc)
    ensures Signed(RespondStep(w, tid, fault, newId))
  {
    hide Inv, Signed, Tally;
    LocklessCells(w, tid, fault, newId);
    SameSigned(w, RespondStep(w, tid, fault, newId));
  }

  lemma LockSigned(w: World, tid: Tid)
    requires Inv(w) && Signed(w) && Enabled(w, GetLock(tid))
    ensures Signed(LockStep(w, tid))
  {
    hide Inv, Enter, PostedIn, Opened, Tally;
    var w', t := LockStep(w, tid), w.tasks[tid];
    EnterPosting(t.pc, SessionOf(w, t.sid), RecordAt(w, t.sid, CacheKey(t.pc)), w.clock);
    forall s, o | s in w'.cells && o in w'.ecops.orders && o.body.ref == w'.cells[s].session.ref
      ensures PostedIn(w'.cells[s], o.body)
    {
      NameKept(w, GetLock(tid), s);
      OrderedIsHeld(w, s, o);
      if s == t.sid {
        AddedKeepsPosts(w.cells[s], w'.cells[s], Section(tid, t.pc, w.clock, []), o.body);
      }
    }
    forall u | Posting(w', u)
      ensures w'.tasks[u].sid in w'.cells && Opened(w'.cells[w'.tasks[u].sid], w'.tasks[u].pc)
    {
      if u == tid {
        OpenedAdded(w.cells[t.sid], w'.cells[t.sid], Section(tid, t.pc, w.clock, []), w'.tasks[tid].pc);
      } else {
        assert Posting(w, u);
        PostingIsHeld(w, u);
      }
    }
  }

  lemma ReplyOrders(w: World, tid: Tid, fault: Fault, newId: nat, s: Sid, o: Order)
    requires RespondsLocked(w, tid, fault, newId) && Signed(w)
    requires var w' := RespondStep(w, tid, fault, newId);
             s in w'.cells && o in w'.ecops.orders && o.body.ref == w'.cells[s].session.ref
    ensures PostedIn(RespondStep(w, tid, fault, newId).cells[s], o.body)
  {
    hide Inv, RespondStep, PostedIn, Opened, Tally, Noted, Serve, Resume;
    var w', t := RespondStep(w, tid, fault, newId), w.tasks[tid];
    var y := Exchange(TaskCall(t), ServedTo(w, tid, fault, newId).reply);
    ReplyFields(w, tid, fault, newId);
    NameKept(w, Respond(tid, fault, newId), s);
    if o in w.ecops.orders {
      OrderedIsHeld(w, s, o);
      if s == t.sid {
        NotedKeepsPosts(w.cells[s], w'.cells[s], y, o.body);
      }
    } else {
      ServeAdds(w, TaskCall(t), fault, newId, o);
      assert Posting(w, tid);
      PostingIsHeld(w, tid);
      SameRef(w, s, t.sid);
      NotedPosts(w.cells[s], w'.cells[s], t.pc, y, o.body);
    }
  }

  lemma ReplyPosting(w: World, tid: Tid, fault: Fault, newId: nat, u: Tid)
    requires RespondsLocked(w, tid, fault, newId) && Signed(w) && Posting(RespondStep(w, tid, fault, newId), u)
    ensures var w' := RespondStep(w, tid, fault, newId);
            w'.tasks[u].sid in w'.cells && Opened(w'.cells[w'.tasks[u].sid], w'.tasks[u].pc)
  {
    hide Inv, RespondStep, PostedIn, Opened, Tally, Noted, Serve, Resume;
    var w', t := RespondStep(w, tid, fault, newId), w.tasks[tid];
    var y := Exchange(TaskCall(t), ServedTo(w, tid, fault, newId).reply);
    ReplyFields(w, tid, fault, newId);
    ServeAnswers(w, TaskCall(t), fault, newId);
    ResumePosting(t.pc, t.local, y.reply);
    assert Posting(w, u);
    PostingIsHeld(w, u);
    if u == tid {
      OpenedNoted(w.cells[t.sid], w'.cells[t.sid], y, t.pc, w'.tasks[tid].pc);
    } else {
      LockHolder(w, tid, fault, newId);
    }
  }

  lemma ReplySigned(w: World, tid: Tid, fault: Fault, newId: nat)
    requires RespondsLocked(w, tid, fault, newId) && Signed(w)
    ensures Signed(RespondStep(w, tid, fault, newId))
  {
    hide Inv, RespondStep, PostedIn, Opened;
    var w' := RespondStep(w, tid, fault, newId);
    forall s, o | s in w'.cells && o in w'.ecops.orders && o.body.ref == w'.cells[s].session.ref
      ensures PostedIn(w'.cells[s], o.body)
    {
      ReplyOrders(w, tid, fault, newId, s, o);
    }
    forall u | Posting(w', u)
      ensures w'.tasks[u].sid in w'.cells && Opened(w'.cells[w'.tasks[u].sid], w'.tasks[u].pc)
    {
      ReplyPosting(w, tid, fault, newId, u);
    }
  }

  lemma StepSigned(w: World, step: Step)
    requires Inv(w) && Signed(w) && Enabled(w, step)
    ensures Signed(Take(w, step))
  {
    hide Inv, Signed, RespondStep, LockStep, StartStep, NewSessionStep;
    match step
    case NewSession(sid, ref) => NewSigned(w, sid, ref);
    case StartOp(tid, sid, op, catalog) => StartSigned(w, tid, sid, op, catalog);
    case GetLock(tid) => LockSigned(w, tid);
    case Respond(tid, fault, newId) =>
      if HoldsLock(w.tasks[tid].pc) {
        ReplySigned(w, tid, fault, newId);
      } else {
        GateSigned(w, tid, fault, newId);
      }
    case Tick(elapsed) => SameSigned(w, w.(clock := w.clock + elapsed));
  }

  // ----- Every reachable state ------------------------------------------------------------------------------

  lemma {:induction false} RunSigned(ws: seq<World>, i: nat)
    requires IsRun(ws) && i < |ws|
    ensures Inv(ws[i]) && Signed(ws[i])
  {
    hide Inv, Enabled, Take;
    if i == 0 {
      InitOk(ws[0]);
    } else {
      RunSigned(ws, i - 1);
      assert Next(ws[i - 1], ws[i - 1 + 1]);
      var step :| Enabled(ws[i - 1], step) && ws[i] == Take(ws[i - 1], step);
      StepKeeps(ws[i - 1], step);
      StepSigned(ws[i - 1], step);
    }
  }

  /** Every stored order of a session was posted by one of its confirm sections, with that section's key and
      exactly this body: the session's reference, its frozen lines one by one, and the name the section was
      given, or else the one the session was held under. */
  lemma OrderWasPosted(w: World, s: Sid, o: Order)
    requires Reachable(w) && s in w.cells && o in w.ecops.orders && o.body.ref == w.cells[s].session.ref
    ensures BodyOf(o.body, w.cells[s].session, o.body.customer)
    ensures exists k: nat, i: nat :: PostedAt(w.cells[s], o.body, k, i)
  {
    hide Inv, Signed, Init, Next, BodyOf;
    var ws :| IsRun(ws) && ws[|ws| - 1] == w;
    RunSigned(ws, |ws| - 1);
    PostedOf(w, s, o);
    BodyCarried(w, s, o);
  }

  lemma BodyCarried(w: World, s: Sid, o: Order)
    requires Inv(w) && s in w.cells && o in w.ecops.orders && o.body.ref == w.cells[s].session.ref
    ensures BodyOf(o.body, w.cells[s].session, o.body.customer)
  {
    hide Inv;
    InvSlice(w, s);
    Orders.OrdersForMeans(w.ecops.orders, o.body.ref);
    assert o in SliceOf(w, s).orders;
  }

  lemma PostedOf(w: World, s: Sid, o: Order)
    requires Signed(w) && s in w.cells && o in w.ecops.orders && o.body.ref == w.cells[s].session.ref
    ensures PostedIn(w.cells[s], o.body)
  {
  }
}
