/** Serialisability: whatever the interleaving, a session is what its locked sections make of it when
they are run one after another, in lock order, each over the replies it got. */
module Serial {
  import opened Models
  import opened Gateways
  import opened Cart
  import opened Metrics
  import opened Program
  import opened Sections
  import opened Slices
  import opened World
  import opened Reach
  import opened Lifecycle
  import opened StockRuns
  import opened Stores
  import Coordinator

  // ----- The serial execution ---------------------------------------------------------------------------

  /** A session and its records after some sections; `pc` is where the last one has come to. */
  datatype History = History(session: Session, recs: map<Key, Record>, pc: Option<Pc>)

  predicate Running(h: History) {
    h.pc.Some? && HoldsLock(h.pc.value)
  }

  function CachedIn(recs: map<Key, Record>, key: Option<Key>): Option<Record> {
    if key.Some? && key.value in recs then Some(recs[key.value]) else None
  }

  /** One section, run alone from its grant. */
  function RunAlone(h: History, x: Section): Option<History> {
    if !WantsLock(x.pc) then None else
      match Exec(Granted(x.pc, h.session, CachedIn(h.recs, CacheKey(x.pc)), x.now), x.trace)
      case None => None
      case Some(u) =>
        Some(History(u.session, if u.put.Some? then h.recs[u.put.value.0 := u.put.value.1] else h.recs, Some(u.pc)))
  }

  /** The sections one after another: a section starts only when the one before it is over. */
  function RunAll(first: Session, sections: seq<Section>): Option<History> {
    if sections == [] then Some(History(first, map[], None)) else
      var n := |sections| - 1;
      match RunAll(first, sections[..n])
      case None => None
      case Some(h) => if Running(h) then None else RunAlone(h, sections[n])
  }

  function SerialRun(c: Cell): Option<History> {
    RunAll(FreshSession(c.session.id, c.session.ref), c.sections)
  }

  /** Acknowledged hold creations in a trace, and in all sections. */
  function Acknowledged(trace: seq<Exchange>): nat {
    if trace == [] then 0 else
      var x := trace[|trace| - 1];
      Acknowledged(trace[..|trace| - 1]) + (if x.call.CreateHold? && x.reply.HoldMade? then 1 else 0)
  }

  function AllAcknowledged(sections: seq<Section>): nat {
    if sections == [] then 0 else
      AllAcknowledged(sections[..|sections| - 1]) + Acknowledged(sections[|sections| - 1].trace)
  }

  // ----- The invariant -------------------------------------------------------------------------------------

  ghost predicate CellSerial(c: Cell) {
    && (var h := SerialRun(c);
        && h.Some? && h.value.session == c.session && h.value.recs == c.recs
        && (c.lock.Some? <==> Running(h.value)))
    && (c.lock.Some? ==> c.sections != [] && c.sections[|c.sections| - 1].tid == c.lock.value)
    && AllAcknowledged(c.sections) == if c.session.hold.Some? then 1 else 0
  }

  /** `k` is the last section of `t`. */
  ghost predicate LastOf(sections: seq<Section>, t: Tid, k: nat) {
    k < |sections| && sections[k].tid == t && forall j :: k < j < |sections| ==> sections[j].tid != t
  }

  /** Where a task is, is where the serial run of its last section got to: so the answer it gives is
      the serial one. */
  ghost predicate TaskSerial(w: World, c: Cell, t: Tid) {
    forall k: nat :: LastOf(c.sections, t, k) ==>
      && t in w.tasks && w.tasks[t].sid == c.session.id && !w.tasks[t].pc.AtGate?
      && var h := RunAll(FreshSession(c.session.id, c.session.ref), c.sections[..k + 1]);
         h.Some? && h.value.pc == Some(w.tasks[t].pc)
  }

  ghost predicate Serialised(w: World) {
    forall s :: s in w.cells ==> CellSerial(w.cells[s]) && forall t :: TaskSerial(w, w.cells[s], t)
  }

  // ----- Extending a serial run ------------------------------------------------------------------------------

  lemma PutEnds(pc: Pc, x: Session, reply: Reply)
    requires AwaitsCall(pc) && (pc.AtFulfill? || pc.AtRelease? ==> x.hold.Some?) && Answers(CallOf(pc, x), reply)
    ensures var e := Resume(pc, x, reply);
            (e.put.Some? ==> e.pc.Done?) && (HoldsLock(pc) ==> !e.pc.AtGate?)
  {
  }

  lemma EnterPutsNothing(pc: Pc, session: Option<Session>, cached: Option<Record>, now: int)
    requires WantsLock(pc)
    ensures Enter(pc, session, cached, now).put.None? && !Enter(pc, session, cached, now).pc.AtGate?
  {
  }

  /** A section writes its record when it ends, not before. */
  lemma {:induction false} NoPutYet(pc: Pc, session: Session, cached: Option<Record>, now: int, trace: seq<Exchange>)
    requires WantsLock(pc)
    requires Exec(Granted(pc, session, cached, now), trace).Some?
    ensures var u := Exec(Granted(pc, session, cached, now), trace).value;
            !u.pc.Done? ==> u.put.None?
  {
    hide Resume, Enter;
    if trace == [] {
      EnterPutsNothing(pc, Some(session), cached, now);
    } else {
      var n := |trace| - 1;
      NoPutYet(pc, session, cached, now, trace[..n]);
      var u := Exec(Granted(pc, session, cached, now), trace[..n]).value;
      PutEnds(u.pc, u.session, trace[n].reply);
    }
  }

  /** Entering a section alone. */
  lemma AloneStarts(h: History, x: Section)
    requires WantsLock(x.pc) && x.trace == []
    ensures var e := Enter(x.pc, Some(h.session), CachedIn(h.recs, CacheKey(x.pc)), x.now);
            RunAlone(h, x) == Some(History(SavedOr(h.session, e), h.recs, Some(e.pc)))
  {
    hide Enter;
    EnterPutsNothing(x.pc, Some(h.session), CachedIn(h.recs, CacheKey(x.pc)), x.now);
  }

  /** One more reply in a section run alone. */
  lemma AloneGoesOn(h: History, x: Section, before: History, pc: Pc, y: Exchange)
    requires RunAlone(h, x) == Some(before) && before.pc == Some(pc) && AwaitsCall(pc)
    requires (pc.AtFulfill? || pc.AtRelease? ==> before.session.hold.Some?)
    requires y.call == CallOf(pc, before.session) && Answers(y.call, y.reply)
    ensures var e := Resume(pc, before.session, y.reply);
            RunAlone(h, x.(trace := x.trace + [y]))
              == Some(History(SavedOr(before.session, e),
                              if e.put.Some? then before.recs[e.put.value.0 := e.put.value.1]
                                else before.recs, Some(e.pc)))
  {
    hide Resume, Enter, CallOf;
    var first := Granted(x.pc, h.session, CachedIn(h.recs, CacheKey(x.pc)), x.now);
    NoPutYet(x.pc, h.session, CachedIn(h.recs, CacheKey(x.pc)), x.now, x.trace);
    ExecAppend(first, x.trace, y);
  }

  lemma AllStarts(first: Session, sections: seq<Section>, x: Section)
    requires RunAll(first, sections).Some? && !Running(RunAll(first, sections).value)
    ensures RunAll(first, sections + [x]) == RunAlone(RunAll(first, sections).value, x)
  {
    assert (sections + [x])[..|sections|] == sections;
  }

  /** The last section goes on by one reply. */
  lemma AllGoesOn(first: Session, sections: seq<Section>, before: History, pc: Pc, y: Exchange)
    requires sections != [] && RunAll(first, sections) == Some(before) && before.pc == Some(pc) && AwaitsCall(pc)
    requires (pc.AtFulfill? || pc.AtRelease? ==> before.session.hold.Some?)
    requires y.call == CallOf(pc, before.session) && Answers(y.call, y.reply)
    ensures var e := Resume(pc, before.session, y.reply);
            RunAll(first, Noted(sections, y))
              == Some(History(SavedOr(before.session, e),
                              if e.put.Some? then before.recs[e.put.value.0 := e.put.value.1]
                                else before.recs, Some(e.pc)))
  {
    hide Resume, CallOf, RunAlone;
    var n := |sections| - 1;
    assert Noted(sections, y)[..n] == sections[..n];
    AloneGoesOn(RunAll(first, sections[..n]).value, sections[n], before, pc, y);
  }

  lemma AcknowledgedAppend(sections: seq<Section>, x: Section)
    requires x.trace == []
    ensures AllAcknowledged(sections + [x]) == AllAcknowledged(sections)
  {
    assert (sections + [x])[..|sections|] == sections;
  }

  lemma AcknowledgedNoted(sections: seq<Section>, y: Exchange)
    requires sections != []
    ensures AllAcknowledged(Noted(sections, y))
              == AllAcknowledged(sections) + (if y.call.CreateHold? && y.reply.HoldMade? then 1 else 0)
  {
    var n := |sections| - 1;
    assert Noted(sections, y)[..n] == sections[..n];
    assert (sections[n].trace + [y])[..|sections[n].trace|] == sections[n].trace;
  }

  // ----- Every step ---------------------------------------------------------------------------------------------

  lemma CellLocks(c: Cell, tid: Tid, pc: Pc, now: int)
    requires CellSerial(c) && c.lock.None? && WantsLock(pc)
    requires var e := Enter(pc, Some(c.session), CachedIn(c.recs, CacheKey(pc)), now);
             KeepsIdentity(c.session, e) && (e.saved.Some? ==> e.saved.value.hold == c.session.hold)
    ensures var e := Enter(pc, Some(c.session), CachedIn(c.recs, CacheKey(pc)), now);
            var c' := Commit(c, tid, e).(sections := c.sections + [Section(tid, pc, now, [])]);
            CellSerial(c') && SerialRun(c').value.pc == Some(e.pc)
  {
    hide Enter, RunAlone, RunAll, AllAcknowledged;
    EnterPutsNothing(pc, Some(c.session), CachedIn(c.recs, CacheKey(pc)), now);
    var x := Section(tid, pc, now, []);
    AloneStarts(SerialRun(c).value, x);
    AllStarts(FreshSession(c.session.id, c.session.ref), c.sections, x);
    AcknowledgedAppend(c.sections, x);
  }

  lemma CellGoesOn(c: Cell, tid: Tid, pc: Pc, y: Exchange, c': Cell)
    requires CellSerial(c) && c.lock == Some(tid) && SerialRun(c).value.pc == Some(pc) && HoldsLock(pc)
    requires (pc.AtFulfill? || pc.AtRelease? ==> c.session.hold.Some?)
    requires y.call == CallOf(pc, c.session) && Answers(y.call, y.reply)
    requires var e := Resume(pc, c.session, y.reply);
             && c'.session == SavedOr(c.session, e) && c'.lock == (if HoldsLock(e.pc) then Some(tid) else None)
             && c'.recs == (if e.put.Some? then c.recs[e.put.value.0 := e.put.value.1] else c.recs)
             && c'.sections == Noted(c.sections, y)
             && c'.session.id == c.session.id && c'.session.ref == c.session.ref
    requires if y.call.CreateHold? && y.reply.HoldMade? then c.session.hold.None? && c'.session.hold.Some?
             else c'.session.hold == c.session.hold
    ensures CellSerial(c') && SerialRun(c').value.pc == Some(Resume(pc, c.session, y.reply).pc)
  {
    hide Resume, CallOf, RunAlone, RunAll, AllAcknowledged;
    AllGoesOn(FreshSession(c.session.id, c.session.ref), c.sections, SerialRun(c).value, pc, y);
    AcknowledgedNoted(c.sections, y);
  }

  /** What another cell says of tasks that did not move. */
  lemma TaskFrame(w: World, w': World, c: Cell, t: Tid)
    requires TaskSerial(w, c, t)
    requires t in w.tasks && w.tasks[t].sid == c.session.id && !w.tasks[t].pc.AtGate? ==>
               t in w'.tasks && w'.tasks[t] == w.tasks[t]
    ensures TaskSerial(w', c, t)
  {
    hide RunAll;
  }

  /** What a cell says of other tasks when its last section is new or goes on. */
  lemma OthersSerial(w: World, w': World, c: Cell, c': Cell, tid: Tid, t: Tid)
    requires TaskSerial(w, c, t) && t != tid
    requires c'.session.id == c.session.id && c'.session.ref == c.session.ref
    requires |c.sections| <= |c'.sections| <= |c.sections| + 1 && c'.sections != []
    requires |c'.sections| == |c.sections| ==> c.sections[|c.sections| - 1].tid == tid
    requires var n := |c'.sections| - 1; c'.sections[n].tid == tid && c'.sections[..n] == c.sections[..n]
    requires t in w.tasks ==> t in w'.tasks && w'.tasks[t] == w.tasks[t]
    ensures TaskSerial(w', c', t)
  {
    hide RunAll;
    var n := |c'.sections| - 1;
    forall k: nat | LastOf(c'.sections, t, k)
      ensures LastOf(c.sections, t, k) && c'.sections[..k + 1] == c.sections[..k + 1]
    {
      assert k < n;
      assert forall j :: 0 <= j < n ==> c'.sections[j] == c'.sections[..n][j] == c.sections[..n][j] == c.sections[j];
      assert c'.sections[..k + 1] == c'.sections[..n][..k + 1] == c.sections[..n][..k + 1] == c.sections[..k + 1];
    }
  }

  lemma OwnSerial(w': World, c': Cell, tid: Tid, pc: Pc)
    requires c'.sections != [] && c'.sections[|c'.sections| - 1].tid == tid
    requires CellSerial(c') && SerialRun(c').value.pc == Some(pc) && !pc.AtGate?
    requires tid in w'.tasks && w'.tasks[tid].pc == pc && w'.tasks[tid].sid == c'.session.id
    ensures TaskSerial(w', c', tid)
  {
    hide RunAll, AllAcknowledged;
    var last := |c'.sections| - 1;
    assert c'.sections[last].tid == tid;
    assert forall k: nat :: LastOf(c'.sections, tid, k) ==> k >= last;
    assert c'.sections[..|c'.sections|] == c'.sections;
  }

  /** One task and its session moved: it got the lock, or got a reply under it. */
  lemma SerialFrom(w: World, w': World, tid: Tid, s: Sid, pc: Pc)
    requires Serialised(w) && Identified(w)
    requires tid in w.tasks && w.tasks[tid].sid == s && s in w.cells && s in w'.cells
    requires w'.cells == w.cells[s := w'.cells[s]]
    requires tid in w'.tasks && w'.tasks == w.tasks[tid := w'.tasks[tid]] && w'.tasks[tid].pc == pc
    requires w'.tasks[tid].sid == s
    requires CellSerial(w'.cells[s]) && SerialRun(w'.cells[s]).value.pc == Some(pc) && !pc.AtGate?
    requires var c, c' := w.cells[s], w'.cells[s];
             && c'.session.id == c.session.id && c'.session.ref == c.session.ref && c'.sections != []
             && |c.sections| <= |c'.sections| <= |c.sections| + 1
             && (|c'.sections| == |c.sections| ==> c.sections[|c.sections| - 1].tid == tid)
             && var n := |c'.sections| - 1;
                c'.sections[n].tid == tid && c'.sections[..n] == c.sections[..n]
    ensures Serialised(w')
  {
    hide CellSerial, TaskSerial, SerialRun;
    forall r, t | r in w'.cells ensures CellSerial(w'.cells[r]) && TaskSerial(w', w'.cells[r], t) {
      assert TaskSerial(w, w.cells[r], t);
      if r != s {
        assert w'.cells[r] == w.cells[r];
        TaskFrame(w, w', w.cells[r], t);
      } else if t != tid {
        OthersSerial(w, w', w.cells[s], w'.cells[s], tid, t);
      } else {
        OwnSerial(w', w'.cells[s], tid, pc);
      }
    }
  }

  lemma LockSerial(w: World, tid: Tid)
    requires Inv(w) && Serialised(w) && Enabled(w, GetLock(tid))
    ensures Serialised(LockStep(w, tid))
  {
    hide Inv, CellSerial, SerialRun, TaskSerial, Enter, Tally, SliceOk;
    var t, w' := w.tasks[tid], LockStep(w, tid);
    if t.sid !in w.cells {
      assert !exists s :: s in w.cells && w.cells[s].session.id == t.sid by { IdentifiedOf(w); }
      forall s, u | s in w.cells ensures TaskSerial(w', w.cells[s], u) {
        TaskFrame(w, w', w.cells[s], u);
      }
    } else {
      var c := w.cells[t.sid];
      LockEntersOk(w, tid);
      EnterPutsNothing(t.pc, Some(c.session), CachedIn(c.recs, CacheKey(t.pc)), w.clock);
      CellLocks(c, tid, t.pc, w.clock);
      IdentifiedOf(w);
      SerialFrom(w, w', tid, t.sid, LockEffect(w, tid).pc);
    }
  }

  lemma IdentifiedOf(w: World)
    requires Inv(w)
    ensures Identified(w)
    ensures forall s :: s in w.cells ==> w.cells[s].session.id == s
  {
  }

  lemma LockEntersOk(w: World, tid: Tid)
    requires Inv(w) && Enabled(w, GetLock(tid)) && w.tasks[tid].sid in w.cells
    ensures var c, e := w.cells[w.tasks[tid].sid], LockEffect(w, tid);
            && c.lock.None?
            && e == Enter(w.tasks[tid].pc, Some(c.session), CachedIn(c.recs, CacheKey(w.tasks[tid].pc)), w.clock)
            && KeepsIdentity(c.session, e) && (e.saved.Some? ==> e.saved.value.hold == c.session.hold)
  {
    hide Enter, SliceOk, GoodLines;
    LockSliceOk(w, tid);
    if w.tasks[tid].pc.AtHoldLock? {
      WaitingLines(w, tid);
    }
    EnterOk(SliceOf(w, w.tasks[tid].sid), w.tasks[tid].pc, w.clock);
  }

  /** The lock holder is where its section has come to. */
  lemma HolderSerial(w: World, tid: Tid)
    requires Inv(w) && Serialised(w) && tid in w.tasks && HoldsLock(w.tasks[tid].pc)
    ensures w.tasks[tid].sid in w.cells
    ensures var c := w.cells[w.tasks[tid].sid];
            && CellSerial(c) && c.lock == Some(tid) && SerialRun(c).value.pc == Some(w.tasks[tid].pc)
            && c.sections != [] && c.sections[|c.sections| - 1].tid == tid
  {
    hide SliceOk, RunAll, AllAcknowledged;
    var c := w.cells[w.tasks[tid].sid];
    assert TaskSerial(w, c, tid);
    assert LastOf(c.sections, tid, |c.sections| - 1);
    assert c.sections[..|c.sections|] == c.sections;
  }

  lemma ReplySerial(w: World, tid: Tid, fault: Fault, newId: nat)
    requires RespondsLocked(w, tid, fault, newId) && Serialised(w)
    ensures Serialised(RespondStep(w, tid, fault, newId))
  {
    hide Inv, CellSerial, SerialRun, TaskSerial, Resume, Serve, Tally, SliceOk, RespondStep;
    var t, w' := w.tasks[tid], RespondStep(w, tid, fault, newId);
    InvOf(w, tid, fault, newId);
    IdentifiedOf(w);
    HolderSerial(w, tid);
    ReplyFields(w, tid, fault, newId);
    ReplyIdentity(w, tid, fault, newId);
    ReplyAnswers(w, tid, fault, newId);
    var y := Exchange(TaskCall(t), ServedTo(w, tid, fault, newId).reply);
    PutEnds(t.pc, t.local, y.reply);
    CellGoesOn(w.cells[t.sid], tid, t.pc, y, w'.cells[t.sid]);
    SerialFrom(w, w', tid, t.sid, ReplyEffect(w, tid, fault, newId).pc);
  }

  lemma GateSerial(w: World, tid: Tid, fault: Fault, newId: nat)
    requires Inv(w) && Serialised(w) && CanRespond(w, tid, fault, newId) && !HoldsLock(w.tasks[tid].pc)
    ensures Serialised(RespondStep(w, tid, fault, newId))
  {
    hide Inv, CellSerial, SerialRun, TaskSerial, Resume, Serve, Tally, SliceOk;
    LocklessCells(w, tid, fault, newId);
    var w' := RespondStep(w, tid, fault, newId);
    forall s, u | s in w.cells ensures TaskSerial(w', w.cells[s], u) {
      TaskFrame(w, w', w.cells[s], u);
    }
  }

  lemma StepSerial(w: World, step: Step)
    requires Inv(w) && Serialised(w) && Enabled(w, step)
    ensures Serialised(Take(w, step))
  {
    hide Inv, CellSerial, SerialRun, TaskSerial, Start, RespondStep, LockStep, NewSessionStep;
    match step
    case NewSession(sid, ref) => NewSessionSerial(w, sid, ref);
    case StartOp(tid, sid, op, catalog) =>
      StartKeeps(w, tid, sid, op, catalog);
      forall s, u | s in w.cells ensures TaskSerial(Take(w, step), w.cells[s], u) {
        TaskFrame(w, Take(w, step), w.cells[s], u);
      }
    case GetLock(tid) => LockSerial(w, tid);
    case Respond(tid, fault, newId) =>
      if HoldsLock(w.tasks[tid].pc) {
        ReplySerial(w, tid, fault, newId);
      } else {
        GateSerial(w, tid, fault, newId);
      }
    case Tick(_) =>
      forall s, u | s in w.cells ensures TaskSerial(Take(w, step), w.cells[s], u) {
        TaskFrame(w, Take(w, step), w.cells[s], u);
      }
  }

  lemma NewSessionSerial(w: World, sid: Sid, ref: Ref)
    requires Serialised(w) && Enabled(w, NewSession(sid, ref))
    ensures Serialised(NewSessionStep(w, sid, ref))
  {
    hide TaskSerial;
    var w' := NewSessionStep(w, sid, ref);
    forall s, u | s in w'.cells ensures CellSerial(w'.cells[s]) && TaskSerial(w', w'.cells[s], u) {
      if s == sid {
        assert TaskSerial(w', w'.cells[sid], u) by { NoSections(w', w'.cells[sid], u); }
      } else {
        TaskFrame(w, w', w.cells[s], u);
      }
    }
  }

  lemma NoSections(w: World, c: Cell, t: Tid)
    requires c.sections == []
    ensures TaskSerial(w, c, t)
  {
  }

  lemma {:induction false} RunSerial(ws: seq<World>, i: nat)
    requires IsRun(ws) && i < |ws|
    ensures Serialised(ws[i])
  {
    hide Inv, Serialised, Enabled, Take;
    if i == 0 {
      InitSerial(ws[0]);
    } else {
      RunSerial(ws, i - 1);
      RunKeeps(ws, i - 1);
      assert Next(ws[i - 1], ws[i]);
      var step :| Enabled(ws[i - 1], step) && ws[i] == Take(ws[i - 1], step);
      StepSerial(ws[i - 1], step);
    }
  }

  lemma InitSerial(w: World)
    requires Init(w)
    ensures Serialised(w)
  {
  }

  // ----- Serialisability ----------------------------------------------------------------------------------------

  /** In every reachable state a session and its records are what its locked sections make of them one
      after another, in lock order; every operation that ran a section stands where that serial run
      puts it, with the serial answer if it is done; and exactly one hold creation was acknowledged for
      a session with a hold, none for one without. */
  lemma SectionsSerialise(w: World, s: Sid)
    requires Reachable(w) && s in w.cells
    ensures var c := w.cells[s];
            var h := RunAll(FreshSession(s, c.session.ref), c.sections);
            && h.Some? && h.value.session == c.session && h.value.recs == c.recs
            && (c.lock.None? ==> !Running(h.value))
            && (forall t, k: nat :: LastOf(c.sections, t, k) ==>
                  t in w.tasks && RunAll(FreshSession(s, c.session.ref), c.sections[..k + 1]).Some?
                  && RunAll(FreshSession(s, c.session.ref), c.sections[..k + 1]).value.pc == Some(w.tasks[t].pc))
            && AllAcknowledged(c.sections) == (if c.session.hold.Some? then 1 else 0)
  {
    hide Inv, Next, RunAll, AllAcknowledged, Init;
    var ws :| IsRun(ws) && ws[|ws| - 1] == w;
    RunSerial(ws, |ws| - 1);
    RunKeeps(ws, |ws| - 1);
    IdentifiedOf(w);
    assert CellSerial(w.cells[s]);
    forall t, k: nat | LastOf(w.cells[s].sections, t, k)
      ensures TaskSerial(w, w.cells[s], t)
    {
    }
  }

  /** Mutual exclusion: two operations inside locked sections are in sections of different sessions,
      and the copy each works on is the stored session. */
  lemma OneHolder(w: World, t: Tid, u: Tid)
    requires Reachable(w) && t in w.tasks && u in w.tasks && t != u
    requires HoldsLock(w.tasks[t].pc) && HoldsLock(w.tasks[u].pc)
    ensures w.tasks[t].sid != w.tasks[u].sid
    ensures w.tasks[t].sid in w.cells && w.tasks[t].local == w.cells[w.tasks[t].sid].session
  {
    hide Reachable, SliceOk;
    ReachableOk(w);
  }

  // ----- Sections are method runs ----------------------------------------------------------------------------------

  /** The records of one session. */
  ghost predicate SameRecords(records: map<(Sid, Key), Record>, id: Sid, recs: map<Key, Record>) {
    forall k: Key :: Find(records, (id, k)) == Find(recs, k)
  }

  /** A section run alone to its end is a run of the coordinator's method for it: from stores that agree
      with the history before, to stores that agree with the history after, with the same answer. */
  lemma SectionIsMethodRun(before: Coordinator.Local, id: Sid, h: History, x: Section, h': History, outcome: Outcome)
    requires WantsLock(x.pc) && id in before.sessions && before.sessions[id] == h.session
    requires SameRecords(before.records, id, h.recs)
    requires RunAlone(h, x) == Some(h') && h'.pc == Some(Done(outcome))
    ensures exists after: Coordinator.Local ::
              && Coordinator.SectionRuns(before, id, x.pc, x.now, x.trace, after, outcome)
              && after.sessions == before.sessions[id := h'.session] && SameRecords(after.records, id, h'.recs)
  {
    hide Exec, Enter;
    assert Coordinator.CachedFor(before, id, x.pc) == CachedIn(h.recs, CacheKey(x.pc)) by {
      if CacheKey(x.pc).Some? {
        assert Find(before.records, (id, CacheKey(x.pc).value)) == Find(h.recs, CacheKey(x.pc).value);
      }
    }
    var u := Exec(Coordinator.FirstThread(before, id, x.pc, x.now), x.trace).value;
    var after := Coordinator.After(before, id, u);
    forall k: Key ensures Find(after.records, (id, k)) == Find(h'.recs, k) {
      assert Find(before.records, (id, k)) == Find(h.recs, k);
    }
    assert Coordinator.SectionRuns(before, id, x.pc, x.now, x.trace, after, outcome);
  }

  // place_order takes its hold in a section of its own, which goes on to wait for the lock again.

  /** A hold section of place_order and its twin of place_hold: the same writes at every point; where the
      one waits to confirm, the other returns. */
  ghost predicate Twins(u: Thread, v: Thread, name: string, key: Key) {
    && v.session == u.session && v.put == u.put && v.events == u.events
    && match u.pc
       case AtStock(lines, customer, next) => next == ThenConfirm(name, key) && v.pc == AtStock(lines, customer, Return)
       case AtCreateHold(lines, customer, next) => next == ThenConfirm(name, key)
         && v.pc == AtCreateHold(lines, customer, Return)
       case AtConfirmLock(customer, k) => customer == Some(name) && k == key && v.pc == Done(Returned(u.session, false))
       case Done(outcome) => outcome.Raised? && v.pc == u.pc
       case _ => false
  }

  lemma TwinsStart(lines: seq<Line>, customer: string, name: string, key: Key, x: Session, cached: Option<Record>,
                   now: int, later: int)
    ensures Twins(Granted(AtHoldLock(lines, customer, ThenConfirm(name, key)), x, cached, now),
                  Granted(AtHoldLock(lines, customer, Return), x, None, later), name, key)
  {
  }

  lemma TwinsStep(u: Thread, v: Thread, name: string, key: Key, y: Exchange)
    requires Twins(u, v, name, key) && Fits(u, y)
    ensures Fits(v, y)
    ensures Twins(Absorb(u, Resume(u.pc, u.session, y.reply)), Absorb(v, Resume(v.pc, v.session, y.reply)), name, key)
  {
  }

  /** Over the same replies, a hold section of place_order writes what its twin of place_hold writes. */
  lemma {:induction false} TwinsRun(t: Thread, t': Thread, name: string, key: Key, trace: seq<Exchange>)
    requires Twins(t, t', name, key) && Exec(t, trace).Some?
    ensures Exec(t', trace).Some? && Twins(Exec(t, trace).value, Exec(t', trace).value, name, key)
  {
    hide Resume, Absorb, Twins, Fits;
    if trace != [] {
      var n := |trace| - 1;
      TwinsRun(t, t', name, key, trace[..n]);
      TwinsStep(Exec(t, trace[..n]).value, Exec(t', trace[..n]).value, name, key, trace[n]);
    }
  }

  /** A hold section of place_order that is over is a run of place_hold's method, which returns the held
      session where the section goes on to its confirm. */
  lemma HoldSectionIsMethodRun(before: Coordinator.Local, id: Sid, h: History, x: Section, h': History, name: string,
                               key: Key)
    returns (after: Coordinator.Local, held: Outcome)
    requires x.pc.AtHoldLock? && x.pc.next == ThenConfirm(name, key)
    requires id in before.sessions && before.sessions[id] == h.session && SameRecords(before.records, id, h.recs)
    requires RunAlone(h, x) == Some(h') && !Running(h')
    ensures h'.pc == Some(AtConfirmLock(Some(name), key))
              || (h'.pc.Some? && h'.pc.value.Done? && h'.pc.value.outcome.Raised?)
    ensures Coordinator.SectionRuns(before, id, AtHoldLock(x.pc.lines, x.pc.customer, Return), 0, x.trace, after, held)
    ensures held == if h'.pc.value.Done? then h'.pc.value.outcome else Returned(h'.session, false)
    ensures after.sessions == before.sessions[id := h'.session] && SameRecords(after.records, id, h'.recs)
  {
    hide Exec, Granted, Enter, Resume;
    var pc := AtHoldLock(x.pc.lines, x.pc.customer, Return);
    var first := Granted(x.pc, h.session, CachedIn(h.recs, CacheKey(x.pc)), x.now);
    var twin := Coordinator.FirstThread(before, id, pc, 0);
    TwinsStart(x.pc.lines, x.pc.customer, name, key, h.session, CachedIn(h.recs, CacheKey(x.pc)), x.now, 0);
    TwinsRun(first, twin, name, key, x.trace);
    var u, v := Exec(first, x.trace).value, Exec(twin, x.trace).value;
    after := Coordinator.After(before, id, v);
    held := v.pc.outcome;
    forall k: Key ensures Find(after.records, (id, k)) == Find(h'.recs, k) {
      assert Find(before.records, (id, k)) == Find(h.recs, k);
    }
  }

  /** A hold section of place_order and the confirm section it goes on to, with nothing in between, are a
      run of place_order's method. */
  lemma TwoSectionsAreMethodRun(before: Coordinator.Local, id: Sid, h: History, x: Section, middle: History, y: Section,
                                h': History, outcome: Outcome)
    requires x.pc.AtHoldLock? && x.pc.next.ThenConfirm? && x.pc.customer == x.pc.next.customer
    requires id in before.sessions && before.sessions[id] == h.session && SameRecords(before.records, id, h.recs)
    requires RunAlone(h, x) == Some(middle) && middle.pc == Some(y.pc) && y.pc.AtConfirmLock?
    requires RunAlone(middle, y) == Some(h') && h'.pc == Some(Done(outcome))
    ensures exists between: Coordinator.Local, after: Coordinator.Local ::
              && Coordinator.BothRun(before, id, x.pc.lines, x.pc.customer, y.pc.key, y.now, x.trace
                   + y.trace, |x.trace|,
                              between, between, after, outcome)
              && SameRecords(after.records, id, h'.recs) && id in after.sessions && after.sessions[id] == h'.session
  {
    hide RunAlone, Coordinator.SectionRuns, SameRecords;
    var name, key := x.pc.next.customer, x.pc.next.key;
    var between, held := HoldSectionIsMethodRun(before, id, h, x, middle, name, key);
    SectionIsMethodRun(between, id, middle, y, h', outcome);
    var after: Coordinator.Local :|
      && Coordinator.SectionRuns(between, id, y.pc, y.now, y.trace, after, outcome)
      && after.sessions == between.sessions[id := h'.session] && SameRecords(after.records, id, h'.recs);
    assert (x.trace + y.trace)[..|x.trace|] == x.trace && (x.trace + y.trace)[|x.trace|..] == y.trace;
    assert Coordinator.BothRun(before, id, x.pc.lines, x.pc.customer, y.pc.key, y.now, x.trace + y.trace, |x.trace|,
                        between, between, after, outcome);
  }
}
