/** Stock conservation across the two systems: every unit is on the shelf, in the hold of a session
that carries one, or in an orphan of a timed-out hold creation. */
module StockRuns {
  import opened Models
  import Sums
  import opened Inventory
  import opened InventoryLaws
  import opened Cart
  import opened Metrics
  import opened Program
  import opened Slices
  import opened World
  import opened Reach
  import opened Lifecycle

  // ----- The invariant ------------------------------------------------------------------------------

  /** A recorded hold is for the lines frozen in its session. */
  ghost predicate Backed(r: HoldRecord, x: Session) {
    r.items == HoldItems(x.lines) && r.reserved == Reserve(HoldItems(x.lines))
  }

  ghost predicate HoldsBacked(w: World) {
    forall s :: s in w.cells && HoldRecorded(w, s) ==>
      Backed(w.ihms.holds[w.cells[s].session.hold.value], w.cells[s].session)
  }

  predicate HoldRecorded(w: World, s: Sid)
    requires s in w.cells
  {
    var h := w.cells[s].session.hold;
    h.Some? && h.value in w.ihms.holds
  }

  ghost predicate Conserved(w: World) {
    Sound(w.ihms) && forall p :: Total(w.ihms, p) == Level(w.stock0, p)
  }

  ghost predicate Stocked(w: World) {
    Conserved(w) && HoldsBacked(w) && w.orphans <= w.ihms.holds.Keys
  }

  // ----- One call ---------------------------------------------------------------------------------------

  /** What a call may do to the inventory service. */
  ghost predicate Serves(s: Ihms, s': Ihms, call: Call, newId: HoldId) {
    && (Sound(s) ==> Sound(s'))
    && (forall p :: Total(s', p) == Total(s, p))
    && (forall h :: h in s'.holds && h in s.holds ==>
          s'.holds[h].items == s.holds[h].items && s'.holds[h].reserved == s.holds[h].reserved)
    && (forall h :: h in s'.holds && h !in s.holds ==>
          call.CreateHold? && h == newId && s'.holds[h].items == call.items
            && s'.holds[h].reserved == Reserve(call.items))
    && (forall h :: h in s.holds && h !in s'.holds ==> call == ReleaseHold(h))
  }

  lemma SameServes(s: Ihms, call: Call, newId: HoldId)
    ensures Serves(s, s, call, newId)
  {
  }

  lemma CreateServes(s: Ihms, items: seq<HoldItem>, newId: HoldId, now: int)
    requires Positive(items) && newId !in s.holds
    ensures Serves(s, CreateHoldAt(s, items, newId, now).0, CreateHold(items), newId)
  {
    hide CreateHoldAt, Total, Sound, Reserve, Covers;
    CreatePositive(s, items, newId, now);
    SameServes(s, CreateHold(items), newId);
    var (s', answer) := CreateHoldAt(s, items, newId, now);
    if answer.Made? {
      forall p ensures Total(s', p) == Total(s, p) {
        CreateConserves(s, items, newId, now, p);
        NoLeak(s, items, p);
      }
    }
  }

  lemma NoLeak(s: Ihms, items: seq<HoldItem>, p: Pid)
    requires Positive(items)
    ensures Leak(s, items, p) == 0
  {
    if Covers(s.inventory, items) {
      ReserveFits(s.inventory, items);
    }
  }

  lemma ReleaseServes(s: Ihms, h: HoldId, newId: HoldId)
    ensures Serves(s, ReleaseHoldAt(s, h).0, ReleaseHold(h), newId)
  {
    hide Total;
    forall p ensures Total(ReleaseHoldAt(s, h).0, p) == Total(s, p) {
      ReleaseConserves(s, h, p);
    }
  }

  lemma FulfillServes(s: Ihms, h: HoldId, newId: HoldId)
    ensures Serves(s, FulfillHoldAt(s, h).0, FulfillHold(h), newId)
  {
    hide Total;
    forall p ensures Total(FulfillHoldAt(s, h).0, p) == Total(s, p) {
      FulfillConserves(s, h, p);
    }
  }

  lemma ServeServes(w: World, call: Call, fault: Fault, newId: nat)
    requires call.CreateHold? ==> Positive(call.items) && newId !in w.ihms.holds
    ensures Serves(w.ihms, Serve(w, call, fault, newId).ihms, call, newId)
  {
    hide Serves, CreateHoldAt, ReleaseHoldAt, FulfillHoldAt, ServeEcops;
    SameServes(w.ihms, call, newId);
    match call
    case CreateHold(items) => CreateServes(w.ihms, items, newId, w.clock);
    case ReleaseHold(h) => ReleaseServes(w.ihms, h, newId);
    case FulfillHold(h) => FulfillServes(w.ihms, h, newId);
    case _ =>
  }

  // ----- One step -----------------------------------------------------------------------------------------

  /** This step answers the create_hold of session `s`. */
  ghost predicate MakesHold(w: World, step: Step, s: Sid)
    requires Inv(w) && Enabled(w, step) && s in w.cells
  {
    && step.Respond? && HoldsLock(w.tasks[step.tid].pc) && w.tasks[step.tid].pc.AtCreateHold?
         && w.tasks[step.tid].sid == s
    && ServedTo(w, step.tid, step.fault, step.newId).reply.HoldMade?
  }

  /** A session keeps its hold and the lines it is for, or gets both from its create_hold. */
  lemma StepHold(w: World, step: Step, s: Sid)
    requires Inv(w) && Enabled(w, step) && s in w.cells
    ensures s in Take(w, step).cells
    ensures var x, y := w.cells[s].session, Take(w, step).cells[s].session;
            if MakesHold(w, step, s) then
              && x.hold.None? && y.hold == Some(ServedTo(w, step.tid, step.fault, step.newId).reply.hold)
              && y.lines == w.tasks[step.tid].pc.lines
            else
              y.hold == x.hold && (x.hold.Some? ==> y.lines == x.lines)
  {
    hide Inv, SliceOk, Evolves, Enter, Resume, Start, Serve, Tally, GoodLines, RespondStep;
    StepEvolves(w, step, s);
    EvolvesKeepsLines(w, s, Take(w, step).cells[s].session);
    match step
    case NewSession(sid, ref) =>
    case StartOp(tid, sid, op, catalog) => StartKeeps(w, tid, sid, op, catalog);
    case GetLock(tid) =>
      if w.tasks[tid].sid == s {
        LockSliceOk(w, tid);
        if w.tasks[tid].pc.AtHoldLock? {
          WaitingLines(w, tid);
        }
        EnterOk(SliceOf(w, s), w.tasks[tid].pc, w.clock);
      }
    case Respond(tid, fault, newId) =>
      if !HoldsLock(w.tasks[tid].pc) {
        LocklessCells(w, tid, fault, newId);
      } else {
        ReplyFields(w, tid, fault, newId);
        ReplyIdentity(w, tid, fault, newId);
        if MakesHold(w, step, s) {
          MadeLines(w, tid, fault, newId);
        }
      }
    case Tick(_) =>
  }

  lemma EvolvesKeepsLines(w: World, s: Sid, y: Session)
    requires Inv(w) && s in w.cells && Evolves(w.cells[s].session, y)
    ensures w.cells[s].session.hold.Some? ==> y.lines == w.cells[s].session.lines
  {
    assert SliceOk(SliceOf(w, s));
  }

  lemma WaitingLines(w: World, tid: Tid)
    requires Inv(w) && tid in w.tasks && w.tasks[tid].pc.AtHoldLock?
    ensures GoodLines(w.tasks[tid].pc.lines)
  {
    hide GoodLines, SliceOk;
  }

  lemma MadeLines(w: World, tid: Tid, fault: Fault, newId: nat)
    requires RespondsLocked(w, tid, fault, newId) && w.tasks[tid].pc.AtCreateHold?
    requires ServedTo(w, tid, fault, newId).reply.HoldMade?
    ensures var e := ReplyEffect(w, tid, fault, newId);
            e.saved.Some? && e.saved.value.lines == w.tasks[tid].pc.lines
  {
    hide Inv, Serve;
  }

  /** Who can touch the inventory service, and how. */
  lemma StepServes(w: World, step: Step)
    requires Inv(w) && Enabled(w, step)
    ensures if step.Respond? then
              && Answered(w, step)
              && Serves(w.ihms, Take(w, step).ihms, TaskCall(w.tasks[step.tid]), step.newId)
            else
              Take(w, step).ihms == w.ihms && Take(w, step).orphans == w.orphans
    ensures Take(w, step).stock0 == w.stock0
  {
    hide Inv, SliceOk, Enter, Resume, Start, Serve, Serves, Tally, Noted, ReleaseFailed;
    if step.Respond? {
      CallPositive(w, step.tid, step.fault, step.newId);
      ServeServes(w, TaskCall(w.tasks[step.tid]), step.fault, step.newId);
    }
  }

  /** The upstream part of a reply. */
  ghost predicate Answered(w: World, step: Step)
    requires Enabled(w, step) && step.Respond?
  {
    var call, w' := TaskCall(w.tasks[step.tid]), Take(w, step);
    var served := Serve(w, call, step.fault, step.newId);
    && w'.ihms == served.ihms
    && w'.orphans == w.orphans
         + (if call.CreateHold? && served.reply.Failed? then served.ihms.holds.Keys - w.ihms.holds.Keys else {})
    && (call.CreateHold? ==>
         step.newId !in w.issued && HoldsLock(w.tasks[step.tid].pc) && w.tasks[step.tid].pc.AtCreateHold?)
    && (call.ReleaseHold? ==> HoldsLock(w.tasks[step.tid].pc) && call.hold == w.tasks[step.tid].local.hold.value)
  }

  lemma CallPositive(w: World, tid: Tid, fault: Fault, newId: nat)
    requires Inv(w) && CanRespond(w, tid, fault, newId)
    ensures var call := TaskCall(w.tasks[tid]);
            call.CreateHold? ==> Positive(call.items) && newId !in w.ihms.holds
  {
    var t := w.tasks[tid];
    if t.pc.AtCreateHold? {
      hide GoodLines, SliceOk;
      CreateFresh(w, tid, fault, newId);
      GoodIsPositive(t.pc.lines);
    }
  }

  lemma MadeIsBacked(w: World, step: Step, s: Sid)
    requires Inv(w) && Enabled(w, step) && s in w.cells && MakesHold(w, step, s)
    ensures s in Take(w, step).cells && HoldRecorded(Take(w, step), s)
    ensures Backed(Take(w, step).ihms.holds[Take(w, step).cells[s].session.hold.value], Take(w, step).cells[s].session)
  {
    hide Inv, Take, Serve, Serves, ServedTo, GoodLines, SliceOk;
    var t := w.tasks[step.tid];
    var items := HoldItems(t.pc.lines);
    StepHold(w, step, s);
    StepServes(w, step);
    CreateFresh(w, step.tid, step.fault, step.newId);
    GoodIsPositive(t.pc.lines);
    CreateIsServed(w, items, step.fault, step.newId);
    NewHold(w.ihms, Take(w, step).ihms, items, step.newId);
  }

  lemma NewHold(s: Ihms, s': Ihms, items: seq<HoldItem>, newId: HoldId)
    requires Serves(s, s', CreateHold(items), newId) && newId in s'.holds && newId !in s.holds
    ensures s'.holds[newId].items == items && s'.holds[newId].reserved == Reserve(items)
  {
  }

  lemma KeptIsBacked(w: World, step: Step, s: Sid)
    requires Inv(w) && HoldsBacked(w) && Enabled(w, step) && s in w.cells && !MakesHold(w, step, s)
    requires s in Take(w, step).cells && HoldRecorded(Take(w, step), s)
    ensures Backed(Take(w, step).ihms.holds[Take(w, step).cells[s].session.hold.value], Take(w, step).cells[s].session)
  {
    hide Inv, Take, SliceOk, Total, Sound;
    StepHold(w, step, s);
    StepServes(w, step);
    SessionHoldIssued(w, s);
    var h := w.cells[s].session.hold.value;
    assert HoldRecorded(w, s);
  }

  lemma SessionHoldIssued(w: World, s: Sid)
    requires Inv(w) && s in w.cells && w.cells[s].session.hold.Some?
    ensures w.cells[s].session.hold.value in w.issued && w.cells[s].session.hold.value !in w.orphans
  {
    hide SliceOk;
  }

  lemma BackedStep(w: World, step: Step)
    requires Inv(w) && HoldsBacked(w) && Enabled(w, step)
    ensures HoldsBacked(Take(w, step))
  {
    hide Inv, Backed, MakesHold;
    forall s | s in Take(w, step).cells && HoldRecorded(Take(w, step), s)
      ensures Backed(Take(w, step).ihms.holds[Take(w, step).cells[s].session.hold.value],
                Take(w, step).cells[s].session)
    {
      if s !in w.cells {
        OnlyNewSessions(w, step, s);
      } else if MakesHold(w, step, s) {
        MadeIsBacked(w, step, s);
      } else {
        KeptIsBacked(w, step, s);
      }
    }
  }

  lemma OnlyNewSessions(w: World, step: Step, s: Sid)
    requires Enabled(w, step) && s in Take(w, step).cells && s !in w.cells
    ensures Take(w, step).cells[s].session.hold == None && step.NewSession?
  {
    hide Start, Enter, Resume, Serve, Tally;
  }

  lemma OrphansStep(w: World, step: Step)
    requires Inv(w) && w.orphans <= w.ihms.holds.Keys && Enabled(w, step)
    ensures Take(w, step).orphans <= Take(w, step).ihms.holds.Keys
  {
    hide Inv, Take, Total, Sound, Serve;
    StepServes(w, step);
    if step.Respond? {
      var t := w.tasks[step.tid];
      if t.pc.AtRelease? {
        HolderHold(w, step.tid);
      }
    }
  }

  lemma HolderHold(w: World, tid: Tid)
    requires Inv(w) && tid in w.tasks && HoldsLock(w.tasks[tid].pc) && w.tasks[tid].local.hold.Some?
    ensures w.tasks[tid].local.hold.value !in w.orphans
  {
    hide SliceOk;
    SessionHoldIssued(w, w.tasks[tid].sid);
  }

  lemma StepStocked(w: World, step: Step)
    requires Inv(w) && Stocked(w) && Enabled(w, step)
    ensures Stocked(Take(w, step))
  {
    hide Inv, HoldsBacked, Total, Sound, Take;
    StepServes(w, step);
    BackedStep(w, step);
    OrphansStep(w, step);
  }

  lemma InitStocked(w: World)
    requires Init(w)
    ensures Stocked(w)
  {
    forall p ensures ReservedOf(w.ihms.holds, p) == map[] {
    }
  }

  lemma NextStocked(w: World, w': World)
    requires Inv(w) && Stocked(w) && Next(w, w')
    ensures Stocked(w') && w'.stock0 == w.stock0
  {
    hide Inv, Stocked, Enabled, Take, Serves;
    var step :| Enabled(w, step) && w' == Take(w, step);
    StepStocked(w, step);
    StepServes(w, step);
  }

  lemma {:induction false} RunStocked(ws: seq<World>, i: nat)
    requires IsRun(ws) && i < |ws|
    ensures Stocked(ws[i]) && ws[i].stock0 == ws[0].stock0
  {
    hide Inv, Stocked, Init, Next;
    if i == 0 {
      InitStocked(ws[0]);
    } else {
      RunStocked(ws, i - 1);
      RunKeeps(ws, i - 1);
      NextStocked(ws[i - 1], ws[i]);
    }
  }

  lemma ReachableStocked(w: World)
    requires Reachable(w)
    ensures Stocked(w) && Inv(w)
  {
    hide Stocked, Inv, Init, Next;
    var ws :| IsRun(ws) && ws[|ws| - 1] == w;
    RunStocked(ws, |ws| - 1);
    RunKeeps(ws, |ws| - 1);
  }

  // ----- The account --------------------------------------------------------------------------------------

  /** Units of `p` in the lines of each session of `ss`, as its hold reserves them. */
  ghost function HeldBy(w: World, ss: set<Sid>, p: Pid): map<Sid, int>
    requires ss <= w.cells.Keys
  {
    map s | s in ss :: Level(Reserve(HoldItems(w.cells[s].session.lines)), p)
  }

  ghost function Recorded(w: World): (ss: set<Sid>)
    ensures ss <= w.cells.Keys
  {
    set s | s in w.cells && HoldRecorded(w, s)
  }

  ghost function OrphanHolds(w: World): map<HoldId, HoldRecord> {
    map h | h in w.ihms.holds && h in w.orphans :: w.ihms.holds[h]
  }

  /** At every moment of every run: initial stock is what is on the shelf, in recorded holds of
      sessions, and in orphans. */
  lemma StockAccount(w: World, p: Pid)
    requires Reachable(w)
    ensures Level(w.stock0, p) ==
              Level(w.ihms.inventory, p) + Sums.Sum(HeldBy(w, Recorded(w), p)) + Sums.Sum(ReservedOf(OrphanHolds(w), p))
    ensures Level(w.ihms.inventory, p) >= 0
    ensures w.orphans == OrphanHolds(w).Keys
  {
    hide Reachable, Inv, HoldsBacked, Reserve;
    ReachableStocked(w);
    assert Total(w.ihms, p) == Level(w.stock0, p);
    var owned := w.ihms.holds - w.orphans;
    var orphans := OrphanHolds(w);
    assert ReservedOf(owned, p) + ReservedOf(orphans, p) == ReservedOf(w.ihms.holds, p);
    Sums.Union(ReservedOf(owned, p), ReservedOf(orphans, p));
    Belongs(w);
    OwnedBySessions(w, p);
  }

  lemma OwnedBySessions(w: World, p: Pid)
    requires HoldsBelong(w) && HoldsBacked(w)
    ensures Sums.Sum(HeldBy(w, Recorded(w), p)) == Sums.Sum(ReservedOf(w.ihms.holds - w.orphans, p))
  {
    hide Reserve, Sums.Sum;
    var m, n := HeldBy(w, Recorded(w), p), ReservedOf(w.ihms.holds - w.orphans, p);
    var f := map s | s in Recorded(w) :: w.cells[s].session.hold.value;
    forall s | s in m ensures f[s] in n && n[f[s]] == m[s] {
      assert HoldRecorded(w, s) && f[s] !in w.orphans;
      assert Backed(w.ihms.holds[f[s]], w.cells[s].session);
    }
    forall s, t | s in m && t in m && f[s] == f[t] ensures s == t {
      assert w.cells[s].session.hold == w.cells[t].session.hold;
    }
    forall h | h in n ensures exists s :: s in m && f[s] == h {
      var s :| s in w.cells && w.cells[s].session.hold == Some(h);
      assert s in m && f[s] == h;
    }
    Sums.Rename(m, n, f);
  }

  /** The sessions whose hold is still theirs, or sold. */
  ghost function Carrying(w: World): (ss: set<Sid>)
    ensures ss <= w.cells.Keys
  {
    set s | s in w.cells && w.cells[s].session.state in {Held, FulfillPending, Confirmed, Reconciled}
      && !w.cells[s].lost
  }

  /** When no lock is held, the sessions with a recorded hold are the held, pending, confirmed and
      reconciled ones that no unacknowledged release robbed of it. */
  lemma CarryingIsRecorded(w: World)
    requires Inv(w) && forall s :: s in w.cells ==> w.cells[s].lock.None?
    ensures Recorded(w) == Carrying(w)
  {
    hide Inv;
    forall s | s in w.cells ensures s in Recorded(w) <==> s in Carrying(w) {
      FreeSlice(w, s);
      FreeHold(SliceOf(w, s));
    }
  }

  lemma FreeSlice(w: World, s: Sid)
    requires Inv(w) && s in w.cells && w.cells[s].lock.None?
    ensures SliceOk(SliceOf(w, s)) && SliceOf(w, s).at.None?
    ensures SliceOf(w, s).hold.Some? <==> HoldRecorded(w, s)
    ensures SliceOf(w, s).session == w.cells[s].session && SliceOf(w, s).lost == w.cells[s].lost
  {
    hide SliceOk;
  }

  lemma FreeHold(s: Slice)
    requires SliceOk(s) && s.at.None?
    ensures s.hold.Some? <==> s.session.state in {Held, FulfillPending, Confirmed, Reconciled} && !s.lost
  {
    hide Cached, Slices.Ordered;
  }

  /** With no lock held: initial stock = available + held, pending and sold lines + orphans. */
  lemma StockBalances(w: World, p: Pid)
    requires Reachable(w) && forall s :: s in w.cells ==> w.cells[s].lock.None?
    ensures Level(w.stock0, p) ==
              Level(w.ihms.inventory, p) + Sums.Sum(HeldBy(w, Carrying(w), p)) + Sums.Sum(ReservedOf(OrphanHolds(w), p))
    ensures Level(w.ihms.inventory, p) >= 0
  {
    hide Reachable, Inv;
    ReachableOk(w);
    StockAccount(w, p);
    CarryingIsRecorded(w);
  }

  /** What a session's hold holds upstream is what its lines asked for. */
  lemma HoldCarriesLines(w: World, s: Sid)
    requires Reachable(w) && s in w.cells && HoldRecorded(w, s)
    ensures var r, lines := w.ihms.holds[w.cells[s].session.hold.value], w.cells[s].session.lines;
            && r.items == HoldItems(lines) && r.reserved == Reserve(HoldItems(lines)) && GoodLines(lines)
            && |r.items| == |lines|
            && forall i :: 0 <= i < |lines| ==>
                 r.items[i].pid == lines[i].pid && r.items[i].quantity == lines[i].quantity
  {
    hide Reachable, Inv;
    ReachableStocked(w);
    BackedLines(w, s);
  }

  lemma BackedLines(w: World, s: Sid)
    requires Inv(w) && s in w.cells && w.cells[s].session.hold.Some?
    ensures GoodLines(w.cells[s].session.lines)
  {
    assert SliceOk(SliceOf(w, s));
  }

  // ----- Over catalogs that give every SKU its own product ------------------------------------------------

  ghost predicate NextInjective(w: World, w': World) {
    exists step :: Enabled(w, step) && (step.StartOp? ==> Injective(step.catalog)) && w' == Take(w, step)
  }

  ghost predicate IsInjectiveRun(ws: seq<World>) {
    && ws != [] && Init(ws[0])
    && forall i :: 0 <= i < |ws| - 1 ==> NextInjective(ws[i], ws[i + 1])
  }

  function LinesOf(pc: Pc): seq<Line> {
    if pc.AtHoldLock? || pc.AtStock? || pc.AtCreateHold? then pc.lines else []
  }

  ghost predicate LinesDistinct(w: World) {
    && (forall t :: t in w.tasks ==> DistinctProducts(HoldItems(LinesOf(w.tasks[t].pc))))
    && (forall s :: s in w.cells && w.cells[s].session.hold.Some? ==>
         DistinctProducts(HoldItems(w.cells[s].session.lines)))
  }

  lemma StartLines(op: Op, catalog: Catalog, session: Option<Session>, cached: Option<Record>)
    requires Injective(catalog)
    ensures DistinctProducts(HoldItems(LinesOf(Start(op, catalog, session, cached).pc)))
  {
    hide CartLines;
    if (op.PlaceHold? || op.PlaceOrder?) && CartLines(catalog, op.items).Ok? {
      CartDistinct(catalog, op.items);
    }
  }

  lemma EnterLines(pc: Pc, session: Option<Session>, cached: Option<Record>, now: int)
    requires WantsLock(pc)
    ensures LinesOf(Enter(pc, session, cached, now).pc) in {[], LinesOf(pc)}
  {
  }

  lemma ResumeLines(pc: Pc, x: Session, reply: Reply)
    requires AwaitsCall(pc) && (pc.AtFulfill? || pc.AtRelease? ==> x.hold.Some?) && Answers(CallOf(pc, x), reply)
    ensures LinesOf(Resume(pc, x, reply).pc) in {[], LinesOf(pc)}
  {
  }

  lemma NoLinesDistinct()
    ensures DistinctProducts(HoldItems([]))
  {
  }

  lemma TaskLines(w: World, step: Step, t: Tid)
    requires LinesDistinct(w) && Enabled(w, step) && (step.StartOp? ==> Injective(step.catalog))
               && t in Take(w, step).tasks
    ensures DistinctProducts(HoldItems(LinesOf(Take(w, step).tasks[t].pc)))
  {
    hide Start, Enter, Resume, Serve, Tally, Noted, ReleaseFailed, DistinctProducts, LinesOf, Injective;
    NoLinesDistinct();
    match step
    case StartOp(tid, sid, op, catalog) =>
      StartLines(op, catalog, SessionOf(w, sid), RecordAt(w, sid, OpKey(op)));
    case GetLock(tid) =>
      var task := w.tasks[tid];
      EnterLines(task.pc, SessionOf(w, task.sid), RecordAt(w, task.sid, CacheKey(task.pc)), w.clock);
    case Respond(tid, fault, newId) =>
      var task := w.tasks[tid];
      ServeAnswers(w, TaskCall(task), fault, newId);
      ResumeLines(task.pc, task.local, Serve(w, TaskCall(task), fault, newId).reply);
    case _ =>
  }

  lemma StepLines(w: World, step: Step)
    requires Inv(w) && LinesDistinct(w) && Enabled(w, step) && (step.StartOp? ==> Injective(step.catalog))
    ensures LinesDistinct(Take(w, step))
  {
    hide Inv, Take, DistinctProducts, Injective;
    var w' := Take(w, step);
    forall t | t in w'.tasks ensures DistinctProducts(HoldItems(LinesOf(w'.tasks[t].pc))) {
      TaskLines(w, step, t);
    }
    forall s | s in w'.cells && w'.cells[s].session.hold.Some?
      ensures DistinctProducts(HoldItems(w'.cells[s].session.lines)) {
      if s !in w.cells {
        OnlyNewSessions(w, step, s);
      } else {
        StepHold(w, step, s);
        if MakesHold(w, step, s) {
          assert LinesOf(w.tasks[step.tid].pc) == w'.cells[s].session.lines;
        }
      }
    }
  }

  lemma {:induction false} InjectiveRun(ws: seq<World>, i: nat)
    requires IsInjectiveRun(ws) && i < |ws|
    ensures LinesDistinct(ws[i]) && IsRun(ws)
  {
    hide Inv, Init, LinesDistinct, Enabled, Take, Injective;
    forall k | 0 <= k < |ws| - 1 ensures Next(ws[k], ws[k + 1]) {
      assert NextInjective(ws[k], ws[k + 1]);
    }
    if i == 0 {
      InitLines(ws[0]);
    } else {
      InjectiveRun(ws, i - 1);
      RunKeeps(ws, i - 1);
      assert NextInjective(ws[i - 1], ws[i]);
      var step :| Enabled(ws[i - 1], step) && (step.StartOp? ==> Injective(step.catalog))
        && ws[i] == Take(ws[i - 1], step);
      StepLines(ws[i - 1], step);
    }
  }

  lemma InitLines(w: World)
    requires Init(w)
    ensures LinesDistinct(w)
  {
  }

  /** Units of `p` ordered by each session of `ss`. */
  ghost function OrderedBy(w: World, ss: set<Sid>, p: Pid): map<Sid, int>
    requires ss <= w.cells.Keys
  {
    map s | s in ss :: InventoryLaws.Ordered(HoldItems(w.cells[s].session.lines), p)
  }

  /** Where distinct SKUs are distinct products, the balance is in ordered quantities. */
  lemma OrderedStockBalances(ws: seq<World>, w: World, p: Pid)
    requires IsInjectiveRun(ws) && w == ws[|ws| - 1] && forall s :: s in w.cells ==> w.cells[s].lock.None?
    ensures Level(w.stock0, p) ==
              Level(w.ihms.inventory, p) + Sums.Sum(OrderedBy(w, Carrying(w), p))
                + Sums.Sum(ReservedOf(OrphanHolds(w), p))
  {
    hide Inv, Reserve, InventoryLaws.Ordered, DistinctProducts, Init, NextInjective, Next, Sums.Sum, ReservedOf;
    InjectiveRun(ws, |ws| - 1);
    RunKeeps(ws, |ws| - 1);
    assert Reachable(w);
    StockBalances(w, p);
    CarryingIsRecorded(w);
    forall s | s in Carrying(w)
      ensures Level(Reserve(HoldItems(w.cells[s].session.lines)), p)
                == InventoryLaws.Ordered(HoldItems(w.cells[s].session.lines), p)
    {
      assert s in Recorded(w);
      ReserveIsOrdered(HoldItems(w.cells[s].session.lines), p);
    }
    assert HeldBy(w, Carrying(w), p) == OrderedBy(w, Carrying(w), p);
  }
}
