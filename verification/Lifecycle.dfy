/** How sessions change over whole runs: the documented state graph, absorbing terminal states,
fields frozen once held, and write-once keys and orders. */
module Lifecycle {
  import opened Models
  import opened Cart
  import opened Metrics
  import opened Program
  import opened Slices
  import opened World
  import opened Reach

  /** The documented transitions. */
  predicate Edge(a: SessionState, b: SessionState) {
    match a
    case Created => b in {Held, Abandoned}
    case Held => b in {Confirmed, Reconciled, FulfillPending, Compensated, Abandoned}
    case FulfillPending => b == Confirmed
    case _ => false
  }

  /** How many more changes a state can see. */
  function Rank(a: SessionState): nat {
    match a
    case Created => 3
    case Held => 2
    case FulfillPending => 1
    case _ => 0
  }

  predicate Frozen(x: Session, y: Session) {
    && y.id == x.id && y.ref == x.ref
    && (x.state != Created ==>
         y.hold == x.hold && y.lines == x.lines && y.customer == x.customer && y.expires == x.expires)
    && (x.key.Some? ==> y.key == x.key)
    && (x.order.Some? ==> y.order == x.order)
    && (x.state in {Confirmed, Abandoned, Compensated, Reconciled} ==> y == x)
  }

  /** One save. */
  predicate Evolves(x: Session, y: Session) {
    Frozen(x, y) && (y.state == x.state || Edge(x.state, y.state))
  }

  function SavedOr(x: Session, e: Effect): Session {
    if e.saved.Some? then e.saved.value else x
  }

  lemma EnterEvolves(s: Slice, pc: Pc, now: int)
    requires SliceOk(s) && s.at.None? && WantsLock(pc)
    ensures var k := CacheKey(pc);
            var cached := if k.Some? && k.value in s.recs then Some(s.recs[k.value]) else None;
            Evolves(s.session, SavedOr(s.session, Enter(pc, Some(s.session), cached, now)))
  {
    if pc.AtConfirmLock? && pc.key in s.recs {
      hide Repaired;
      RepairIsIdle(s, pc.key, {Held, FulfillPending});
    }
  }

  lemma ResumeEvolves(s: Slice, reply: Reply)
    requires SliceOk(s) && s.at.Some? && HoldsLock(s.at.value)
    requires s.at.value.AtFulfill? || s.at.value.AtRelease? ==> s.session.hold.Some?
    requires Answers(CallOf(s.at.value, s.session), reply)
    ensures Evolves(s.session, SavedOr(s.session, Resume(s.at.value, s.session, reply)))
  {
    hide GoodLines, HoldTracked, Cached;
  }

  /** Every step saves along the graph. */
  lemma StepEvolves(w: World, step: Step, s: Sid)
    requires Inv(w) && Enabled(w, step) && s in w.cells
    ensures s in Take(w, step).cells && Evolves(w.cells[s].session, Take(w, step).cells[s].session)
  {
    hide Inv, SliceOk, Evolves, Enter, Resume, Start, Serve, Tally;
    SameEvolves(w.cells[s].session);
    match step
    case NewSession(sid, ref) =>
    case StartOp(tid, sid, op, catalog) => StartKeeps(w, tid, sid, op, catalog);
    case GetLock(tid) =>
      if w.tasks[tid].sid == s {
        LockSliceOk(w, tid);
        EnterEvolves(SliceOf(w, s), w.tasks[tid].pc, w.clock);
      }
    case Respond(tid, fault, newId) =>
      RespondEvolves(w, tid, fault, newId, s);
    case Tick(_) =>
  }

  lemma SameEvolves(x: Session)
    ensures Evolves(x, x)
  {
  }

  lemma LockSliceOk(w: World, tid: Tid)
    requires Inv(w) && Enabled(w, GetLock(tid)) && w.tasks[tid].sid in w.cells
    ensures SliceOk(SliceOf(w, w.tasks[tid].sid)) && SliceOf(w, w.tasks[tid].sid).at.None?
  {
    hide SliceOk;
  }

  lemma RespondEvolves(w: World, tid: Tid, fault: Fault, newId: nat, s: Sid)
    requires Inv(w) && CanRespond(w, tid, fault, newId) && s in w.cells
    ensures var w' := RespondStep(w, tid, fault, newId);
            s in w'.cells && Evolves(w.cells[s].session, w'.cells[s].session)
  {
    hide Inv, SliceOk, Evolves, Resume, Serve, RespondStep;
    SameEvolves(w.cells[s].session);
    if !HoldsLock(w.tasks[tid].pc) {
      LocklessCells(w, tid, fault, newId);
    } else {
      ReplyFields(w, tid, fault, newId);
      ReplyIdentity(w, tid, fault, newId);
      if w.tasks[tid].sid == s {
        ReplyAnswers(w, tid, fault, newId);
        ResumeEvolves(SliceOf(w, s), ServedTo(w, tid, fault, newId).reply);
      }
    }
  }

  lemma LocklessCells(w: World, tid: Tid, fault: Fault, newId: nat)
    requires CanRespond(w, tid, fault, newId) && !HoldsLock(w.tasks[tid].pc)
    ensures RespondStep(w, tid, fault, newId).cells == w.cells
  {
    hide Serve, Resume, Tally;
  }

  lemma ReplyAnswers(w: World, tid: Tid, fault: Fault, newId: nat)
    requires RespondsLocked(w, tid, fault, newId)
    ensures var t := w.tasks[tid];
            && (t.pc.AtFulfill? || t.pc.AtRelease? ==> t.local.hold.Some?)
            && Answers(CallOf(t.pc, t.local), ServedTo(w, tid, fault, newId).reply)
            && ReplyEffect(w, tid, fault, newId) == Resume(t.pc, t.local, ServedTo(w, tid, fault, newId).reply)
            && SliceOf(w, t.sid).at == Some(t.pc) && SliceOf(w, t.sid).session == t.local
  {
    hide Serve, Resume, SliceOk;
    ServeAnswers(w, TaskCall(w.tasks[tid]), fault, newId);
    ReplyIdentity(w, tid, fault, newId);
  }

  // ----- Whole runs --------------------------------------------------------------------------------------

  /** What can be reached from a state in any number of saves. */
  predicate CanBecome(a: SessionState, b: SessionState) {
    || a == b
    || match a
       case Created => true
       case Held => b != Created
       case FulfillPending => b == Confirmed
       case _ => false
  }

  /** How often the state of `s` changes between two moments of a run. */
  ghost function Changes(ws: seq<World>, s: Sid, i: nat, j: nat): nat
    requires i <= j < |ws| && forall k :: i <= k <= j ==> s in ws[k].cells
    decreases j
  {
    if i == j then 0 else
      Changes(ws, s, i, j - 1) + (if ws[j].cells[s].session.state != ws[j - 1].cells[s].session.state then 1 else 0)
  }

  lemma {:induction false} SessionsStay(ws: seq<World>, s: Sid, i: nat, j: nat)
    requires IsRun(ws) && i <= j < |ws| && s in ws[i].cells
    ensures forall k :: i <= k <= j ==> s in ws[k].cells
    decreases j
  {
    hide Init, Inv, Next, Evolves;
    if i < j {
      SessionsStay(ws, s, i, j - 1);
      RunKeeps(ws, j - 1);
      assert Next(ws[j - 1], ws[j]);
      NextEvolves(ws[j - 1], ws[j], s);
    }
  }

  lemma NextEvolves(w: World, w': World, s: Sid)
    requires Inv(w) && Next(w, w') && s in w.cells
    ensures s in w'.cells && Evolves(w.cells[s].session, w'.cells[s].session)
  {
    hide Inv, Enabled, Take, Evolves;
    var step :| Enabled(w, step) && w' == Take(w, step);
    StepEvolves(w, step, s);
  }

  /** Between any two moments of any run a session keeps its identity, follows the state graph and
      changes state at most three times; its hold, lines, customer and expiry are fixed once it is
      held, its key and its order once they are set, and all of it once it is terminal. */
  lemma {:induction false} WholeRun(ws: seq<World>, s: Sid, i: nat, j: nat)
    requires IsRun(ws) && i <= j < |ws| && s in ws[i].cells
    ensures forall k :: i <= k <= j ==> s in ws[k].cells
    ensures var x, y := ws[i].cells[s].session, ws[j].cells[s].session;
            && Frozen(x, y) && CanBecome(x.state, y.state)
            && Changes(ws, s, i, j) + Rank(y.state) <= Rank(x.state)
            && Changes(ws, s, i, j) <= 3
    decreases j
  {
    hide Init, Next, Inv;
    SessionsStay(ws, s, i, j);
    if i < j {
      WholeRun(ws, s, i, j - 1);
      RunKeeps(ws, j - 1);
      assert Next(ws[j - 1], ws[j]);
      NextEvolves(ws[j - 1], ws[j], s);
      FrozenStep(ws[i].cells[s].session, ws[j - 1].cells[s].session, ws[j].cells[s].session);
    }
  }

  lemma FrozenStep(x: Session, y: Session, z: Session)
    requires Frozen(x, y) && CanBecome(x.state, y.state) && Evolves(y, z)
    ensures Frozen(x, z) && CanBecome(x.state, z.state)
    ensures z.state != y.state ==> Rank(z.state) < Rank(y.state)
  {
  }
}
