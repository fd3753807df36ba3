/** Locked sections: what an operation does between getting a session lock and giving it up.

A `Thread` is one operation inside its section; `Exec` runs it over a trace of exchanges with
the gateways.  The coordinator's methods and the concurrent model both refer to it.
*/
module Sections {
  import opened Models
  import opened Gateways
  import opened Retries
  import opened Metrics
  import opened Program

  datatype Thread = Thread(pc: Pc, session: Session, put: Option<(Key, Record)>, events: seq<Event>)

  function Absorb(t: Thread, e: Effect): Thread {
    Thread(e.pc,
           if e.saved.Some? then e.saved.value else t.session,
           if e.put.Some? then e.put else t.put,
           if e.event.Some? then t.events + [e.event.value] else t.events)
  }

  function TallyAll(c: Counters, events: seq<Event>): Counters {
    if events == [] then c else
      Tally(TallyAll(c, events[..|events| - 1]), Some(events[|events| - 1]))
  }

  /** Events are tallied one after another, in order. */
  lemma {:induction false} TallyAllAdds(c: Counters, a: seq<Event>, b: seq<Event>)
    ensures TallyAll(c, a + b) == TallyAll(TallyAll(c, a), b)
  {
    if b == [] {
      assert a + b == a;
    } else {
      assert (a + b)[..|a| + |b| - 1] == a + b[..|b| - 1];
      TallyAllAdds(c, a, b[..|b| - 1]);
    }
  }

  lemma TallyAllOne(c: Counters, event: Event)
    ensures TallyAll(c, []) == c && TallyAll(c, [event]) == Tally(c, Some(event))
  {
    assert [event][..0] == [];
  }

  /** The thread that has just been granted the lock. */
  function Granted(pc: Pc, session: Session, cached: Option<Record>, now: int): Thread
    requires WantsLock(pc)
  {
    Absorb(Thread(pc, session, None, []), Enter(pc, Some(session), cached, now))
  }

  predicate Fits(t: Thread, x: Exchange) {
    && AwaitsCall(t.pc)
    && (t.pc.AtFulfill? || t.pc.AtRelease? ==> t.session.hold.Some?)
    && x.call == CallOf(t.pc, t.session) && Answers(x.call, x.reply)
  }

  /** None when the trace is not one of this thread's. */
  function Exec(t: Thread, trace: seq<Exchange>): Option<Thread> {
    if trace == [] then Some(t) else
      var n := |trace| - 1;
      match Exec(t, trace[..n])
      case None => None
      case Some(u) =>
        if Fits(u, trace[n]) then Some(Absorb(u, Resume(u.pc, u.session, trace[n].reply))) else None
  }

  lemma ExecAppend(t: Thread, trace: seq<Exchange>, x: Exchange)
    requires Exec(t, trace).Some? && Fits(Exec(t, trace).value, x)
    ensures var u := Exec(t, trace).value;
            Exec(t, trace + [x]) == Some(Absorb(u, Resume(u.pc, u.session, x.reply)))
  {
    assert (trace + [x])[..|trace|] == trace;
  }

  // ----- How much work a section does ---------------------------------------------------------

  function Count(trace: seq<Exchange>, p: Call -> bool): nat {
    if trace == [] then 0 else
      Count(trace[..|trace| - 1], p) + (if p(trace[|trace| - 1].call) then 1 else 0)
  }

  predicate WithinBounds(pc: Pc) {
    match pc
    case AtLookup(why, attempt, max) => attempt <= max && max == (if why.BeforePost? then 0 else MAX_RETRIES)
    case AtFulfill(_, attempt) => attempt <= MAX_RETRIES
    case AtRelease(_, attempt) => attempt <= MAX_RETRIES
    case _ => true
  }

  /** An upper bound on the calls still to be made in a confirm or abandon section. */
  function Fuel(pc: Pc): int {
    match pc
    case AtLookup(BeforePost(_, _), _, _) => 8
    case AtPost(_, _) => 7
    case AtLookup(_, attempt, _) => 6 - attempt
    case AtFulfill(_, attempt) => 3 - attempt
    case AtRelease(_, attempt) => 3 - attempt
    case _ => 0
  }

  predicate IsPost(c: Call) { c.PostOrder? }
  predicate IsFulfill(c: Call) { c.FulfillHold? }
  predicate IsRelease(c: Call) { c.ReleaseHold? }

  /** Before the POST, after it, fulfilling, releasing, done: a section only moves forward. */
  predicate BeforeOrAtPost(pc: Pc) {
    pc.AtPost? || (pc.AtLookup? && pc.lookup.BeforePost?)
  }

  /** The bookkeeping of a confirm section after a trace. */
  ghost predicate Spent(pc: Pc, trace: seq<Exchange>) {
    && WithinBounds(pc) && (AwaitsCall(pc) ==> Fuel(pc) > 0)
    && (pc.AtLookup? || pc.AtPost? || pc.AtFulfill? || pc.AtRelease? || pc.Done?)
    && |trace| + Fuel(pc) <= 8
    && Count(trace, IsPost) + (if BeforeOrAtPost(pc) then 1 else 0) <= 1
    && (Count(trace, IsFulfill) > 0 ==> (pc.AtFulfill? || pc.Done?) && Count(trace, IsRelease) == 0)
    && (Count(trace, IsRelease) > 0 ==> (pc.AtRelease? || pc.Done?) && Count(trace, IsFulfill) == 0)
  }

  /** One reply moves a confirm section strictly forward. */
  lemma ForwardStep(t: Thread, x: Exchange)
    requires WithinBounds(t.pc) && Fits(t, x)
    requires t.pc.AtLookup? || t.pc.AtPost? || t.pc.AtFulfill? || t.pc.AtRelease?
    ensures var pc := Resume(t.pc, t.session, x.reply).pc;
            && WithinBounds(pc) && (AwaitsCall(pc) ==> Fuel(pc) > 0) && 0 <= Fuel(pc) < Fuel(t.pc)
            && (pc.AtLookup? || pc.AtPost? || pc.AtFulfill? || pc.AtRelease? || pc.Done?)
            && (BeforeOrAtPost(pc) ==> BeforeOrAtPost(t.pc) && !t.pc.AtPost?)
            && (t.pc.AtFulfill? ==> pc.AtFulfill? || pc.Done?)
            && (t.pc.AtRelease? ==> pc.AtRelease? || pc.Done?)
  {
  }

  lemma SpentStep(t: Thread, trace: seq<Exchange>, x: Exchange)
    requires Spent(t.pc, trace) && Fits(t, x)
    ensures Spent(Resume(t.pc, t.session, x.reply).pc, trace + [x])
  {
    hide Resume, Count;
    ForwardStep(t, x);
    CountAppend(trace, x, IsPost);
    CountAppend(trace, x, IsFulfill);
    CountAppend(trace, x, IsRelease);
  }

  lemma CountAppend(trace: seq<Exchange>, x: Exchange, p: Call -> bool)
    ensures Count(trace + [x], p) == Count(trace, p) + (if p(x.call) then 1 else 0)
  {
    assert (trace + [x])[..|trace|] == trace;
  }

  /** For every state, key, cached record and reply script, a confirm section is over after at most
      8 calls, at most one of them a POST, and never both fulfils and releases. */
  lemma {:induction false} ConfirmWorkBound(customer: Option<string>, key: Key, s: Session, cached: Option<Record>,
                                            now: int,
                                            trace: seq<Exchange>)
    requires Exec(Granted(AtConfirmLock(customer, key), s, cached, now), trace).Some?
    ensures var u := Exec(Granted(AtConfirmLock(customer, key), s, cached, now), trace).value;
            && Spent(u.pc, trace)
            && (|trace| == 8 ==> u.pc.Done?)
    ensures |trace| <= 8 && Count(trace, IsPost) <= 1
    ensures Count(trace, IsFulfill) == 0 || Count(trace, IsRelease) == 0
  {
    hide Resume;
    if trace != [] {
      hide EnterConfirm;
      var n := |trace| - 1;
      ConfirmWorkBound(customer, key, s, cached, now, trace[..n]);
      SpentStep(Exec(Granted(AtConfirmLock(customer, key), s, cached, now), trace[..n]).value, trace[..n], trace[n]);
      assert trace == trace[..n] + [trace[n]];
    }
  }

  lemma FulfillForward(u: Thread, x: Exchange)
    requires u.pc.AtFulfill? && u.pc.attempt <= MAX_RETRIES && Fits(u, x)
    ensures IsFulfill(x.call)
    ensures var pc := Resume(u.pc, u.session, x.reply).pc;
            pc.Done? || (pc.AtFulfill? && pc.attempt == u.pc.attempt + 1 <= MAX_RETRIES)
  {
  }

  lemma ReplayStart(customer: Option<string>, key: Key, s: Session, r: Record, now: int)
    ensures var pc := Granted(AtConfirmLock(customer, key), s, Some(r), now).pc;
            pc.Done? || (pc.AtFulfill? && pc.attempt == 0)
  {
  }

  /** A replay served from the cache only ever fulfils: no POST, no lookup, no release. */
  lemma {:induction false} ReplayWork(customer: Option<string>, key: Key, s: Session, r: Record, now: int,
                                      trace: seq<Exchange>)
    requires Exec(Granted(AtConfirmLock(customer, key), s, Some(r), now), trace).Some?
    ensures var u := Exec(Granted(AtConfirmLock(customer, key), s, Some(r), now), trace).value;
            (u.pc.AtFulfill? && |trace| == u.pc.attempt <= MAX_RETRIES) || (u.pc.Done? && |trace| <= MAX_RETRIES + 1)
    ensures forall i :: 0 <= i < |trace| ==> IsFulfill(trace[i].call)
  {
    hide Enter, EnterConfirm, Resume, CallOf;
    var first := Granted(AtConfirmLock(customer, key), s, Some(r), now);
    if trace == [] {
      ReplayStart(customer, key, s, r, now);
    } else {
      var n := |trace| - 1;
      ReplayWork(customer, key, s, r, now, trace[..n]);
      FulfillForward(Exec(first, trace[..n]).value, trace[n]);
    }
  }

  lemma ReplayNext(u: Thread, x: Exchange)
    requires u.pc.AtFulfill? && u.pc.fulfill == CachedReplay && Fits(u, x)
    ensures var e := Resume(u.pc, u.session, x.reply);
            && e.saved.None? && e.put.None? && e.event.None?
            && (e.pc == Done(Returned(u.session, true)) || (e.pc.AtFulfill? && e.pc.fulfill == CachedReplay))
  {
  }

  /** However often a finished confirm is repeated with its key, and whatever the service answers, it
      returns the same session from the cache, saves it as it is, and counts nothing. */
  lemma {:induction false} ReplayGivesSame(customer: Option<string>, key: Key, s: Session, now: int,
                                           trace: seq<Exchange>)
    requires s.state in {Confirmed, Reconciled} && s.order.Some? && s.hold.Some?
    requires Exec(Granted(AtConfirmLock(customer, key), s, Some(RecordOf(s)), now), trace).Some?
    ensures var u := Exec(Granted(AtConfirmLock(customer, key), s, Some(RecordOf(s)), now), trace).value;
            && u.session == s && u.put.None? && u.events == []
            && (u.pc == Done(Returned(s, true)) || (u.pc.AtFulfill? && u.pc.fulfill == CachedReplay))
  {
    hide Resume, CallOf;
    if trace != [] {
      hide Enter, EnterConfirm;
      var n := |trace| - 1;
      ReplayGivesSame(customer, key, s, now, trace[..n]);
      ReplayNext(Exec(Granted(AtConfirmLock(customer, key), s, Some(RecordOf(s)), now), trace[..n]).value, trace[n]);
    }
  }

  // ----- Single calls inside a section ----------------------------------------------------------

  lemma StockEnded(t: Thread, before: seq<Exchange>, u: Thread, lines: seq<Line>, customer: string, next: AfterHold,
                   reply: Reply)
    requires Exec(t, before) == Some(u) && u.pc == AtStock(lines, customer, next) && Answers(GetInventory, reply)
    ensures Exec(t, before + [Exchange(GetInventory, reply)])
              == Some(Absorb(u, AfterStock(lines, customer, next, reply)))
  {
    ExecAppend(t, before, Exchange(GetInventory, reply));
  }

  lemma CreateHoldEnded(t: Thread, before: seq<Exchange>, u: Thread, lines: seq<Line>, customer: string,
                        next: AfterHold, reply: Reply)
    requires Exec(t, before) == Some(u) && u.pc == AtCreateHold(lines, customer, next)
    requires Answers(CreateHold(HoldItems(lines)), reply)
    ensures Exec(t, before + [Exchange(CreateHold(HoldItems(lines)), reply)])
              == Some(Absorb(u, AfterCreateHold(lines, customer, next, u.session, reply)))
  {
    ExecAppend(t, before, Exchange(CreateHold(HoldItems(lines)), reply));
  }

  lemma PostEnded(t: Thread, before: seq<Exchange>, u: Thread, customer: string, key: Key, reply: Reply)
    requires Exec(t, before) == Some(u) && u.pc == AtPost(customer, key)
    requires Answers(PostOrder(OrderPayload(u.session, customer), key), reply)
    ensures Exec(t, before + [Exchange(PostOrder(OrderPayload(u.session, customer), key), reply)])
              == Some(Absorb(u, AfterPost(u.session, key, reply)))
  {
    ExecAppend(t, before, Exchange(PostOrder(OrderPayload(u.session, customer), key), reply));
  }

  // ----- Retry loops inside a section ------------------------------------------------------------

  lemma LookupAgain(u: Thread, why: LookupReason, attempt: nat, max: nat, x: Exchange)
    requires u.pc == AtLookup(why, attempt, max) && attempt < max
    requires x.call == FindOrder(u.session.ref) && Inconclusive(x.reply)
    ensures Fits(u, x) && Resume(u.pc, u.session, x.reply) == Go(AtLookup(why, attempt + 1, max))
  {
  }

  lemma LookupOver(u: Thread, why: LookupReason, attempt: nat, max: nat, x: Exchange, result: Lookup)
    requires u.pc == AtLookup(why, attempt, max)
    requires x.call == FindOrder(u.session.ref) && Answers(x.call, x.reply)
    requires FindNext(attempt, max, x.reply) == Ended(result)
    ensures Fits(u, x) && Resume(u.pc, u.session, x.reply) == AfterLookup(why, u.session, result)
  {
  }

  lemma {:induction false} LookupTrying(t: Thread, before: seq<Exchange>, u: Thread, trace: seq<Exchange>,
                                        why: LookupReason, max: nat)
    requires Exec(t, before) == Some(u) && u.pc == AtLookup(why, 0, max)
    requires |trace| <= max
    requires forall i :: 0 <= i < |trace| ==> trace[i].call == FindOrder(u.session.ref) && Inconclusive(trace[i].reply)
    ensures Exec(t, before + trace) == Some(u.(pc := AtLookup(why, |trace|, max)))
  {
    hide Resume, Exec;
    if trace == [] {
      assert before + trace == before;
    } else {
      var n := |trace| - 1;
      LookupTrying(t, before, u, trace[..n], why, max);
      assert before + trace == before + trace[..n] + [trace[n]];
      LookupAgain(u.(pc := AtLookup(why, n, max)), why, n, max, trace[n]);
      ExecAppend(t, before + trace[..n], trace[n]);
    }
  }

  /** A whole lookup loop inside a section. */
  lemma LookupEnded(t: Thread, before: seq<Exchange>, u: Thread, trace: seq<Exchange>, why: LookupReason, max: nat,
                    result: Lookup)
    requires Exec(t, before) == Some(u) && u.pc == AtLookup(why, 0, max)
    requires forall i :: 0 <= i < |trace| ==>
               trace[i].call == FindOrder(u.session.ref) && Answers(trace[i].call, trace[i].reply)
    requires FindResult(max, Replies(trace), result)
    ensures Exec(t, before + trace) == Some(Absorb(u, AfterLookup(why, u.session, result)))
  {
    hide Resume, Exec, AfterLookup, AfterFulfill, AfterRelease;
    var n := |trace| - 1;
    forall i | 0 <= i < n ensures Inconclusive(trace[..n][i].reply) {
      assert Inconclusive(Replies(trace)[i]);
    }
    LookupTrying(t, before, u, trace[..n], why, max);
    assert before + trace == before + trace[..n] + [trace[n]];
    assert Replies(trace)[n] == trace[n].reply;
    LookupOver(u.(pc := AtLookup(why, n, max)), why, n, max, trace[n], result);
    ExecAppend(t, before + trace[..n], trace[n]);
  }

  lemma FulfillAgain(u: Thread, why: FulfillReason, attempt: nat, x: Exchange)
    requires u.pc == AtFulfill(why, attempt) && u.session.hold.Some? && attempt < MAX_RETRIES
    requires x.call == FulfillHold(u.session.hold.value) && TimedOut(x.reply)
    ensures Fits(u, x) && Resume(u.pc, u.session, x.reply) == Go(AtFulfill(why, attempt + 1))
  {
  }

  lemma FulfillOver(u: Thread, why: FulfillReason, attempt: nat, x: Exchange, result: bool)
    requires u.pc == AtFulfill(why, attempt) && u.session.hold.Some?
    requires x.call == FulfillHold(u.session.hold.value) && Answers(x.call, x.reply)
    requires FulfillNext(attempt, MAX_RETRIES, x.reply) == Ended(result)
    ensures Fits(u, x) && Resume(u.pc, u.session, x.reply) == AfterFulfill(why, u.session, result)
  {
  }

  lemma {:induction false} FulfillTrying(t: Thread, before: seq<Exchange>, u: Thread, trace: seq<Exchange>,
                                         why: FulfillReason)
    requires Exec(t, before) == Some(u) && u.pc == AtFulfill(why, 0) && u.session.hold.Some?
    requires |trace| <= MAX_RETRIES
    requires forall i :: 0 <= i < |trace| ==>
               trace[i].call == FulfillHold(u.session.hold.value) && TimedOut(trace[i].reply)
    ensures Exec(t, before + trace) == Some(u.(pc := AtFulfill(why, |trace|)))
  {
    hide Resume, Exec;
    if trace == [] {
      assert before + trace == before;
    } else {
      var n := |trace| - 1;
      FulfillTrying(t, before, u, trace[..n], why);
      assert before + trace == before + trace[..n] + [trace[n]];
      FulfillAgain(u.(pc := AtFulfill(why, n)), why, n, trace[n]);
      ExecAppend(t, before + trace[..n], trace[n]);
    }
  }

  /** A whole fulfill loop inside a section. */
  lemma FulfillEnded(t: Thread, before: seq<Exchange>, u: Thread, trace: seq<Exchange>, why: FulfillReason,
                     result: bool)
    requires Exec(t, before) == Some(u) && u.pc == AtFulfill(why, 0) && u.session.hold.Some?
    requires forall i :: 0 <= i < |trace| ==>
               trace[i].call == FulfillHold(u.session.hold.value) && Answers(trace[i].call, trace[i].reply)
    requires FulfillResult(MAX_RETRIES, Replies(trace), result)
    ensures Exec(t, before + trace) == Some(Absorb(u, AfterFulfill(why, u.session, result)))
  {
    hide Resume, Exec, AfterLookup, AfterFulfill, AfterRelease;
    var n := |trace| - 1;
    forall i | 0 <= i < n ensures TimedOut(trace[..n][i].reply) {
      assert TimedOut(Replies(trace)[i]);
    }
    FulfillTrying(t, before, u, trace[..n], why);
    assert before + trace == before + trace[..n] + [trace[n]];
    assert Replies(trace)[n] == trace[n].reply;
    FulfillOver(u.(pc := AtFulfill(why, n)), why, n, trace[n], result);
    ExecAppend(t, before + trace[..n], trace[n]);
  }

  /** The completion of an order that a lookup found: RECONCILED and counted as such exactly if the fulfil
      loop returns True, and FULFILL_PENDING otherwise. */
  lemma FoundOrderEnds(t: Thread, before: seq<Exchange>, u: Thread, trace: seq<Exchange>, order: Order, key: Key,
                       result: bool)
    requires Exec(t, before) == Some(u) && u.pc == AtFulfill(NewOrder(order, key, true), 0)
    requires u.session.state == Held && u.session.hold.Some?
    requires forall i :: 0 <= i < |trace| ==>
               trace[i].call == FulfillHold(u.session.hold.value) && Answers(trace[i].call, trace[i].reply)
    requires FulfillResult(MAX_RETRIES, Replies(trace), result)
    ensures Exec(t, before + trace).Some?
    ensures var end := Exec(t, before + trace).value;
            && end.pc == Done(Returned(end.session, false))
            && end.session.order == Some(order.id) && end.session.key == Some(key)
            && (end.session.state == Reconciled <==> result) && (end.session.state == FulfillPending <==> !result)
            && end.events == u.events + (if result then [ConfirmSucceeded(true)] else [])
  {
    FulfillEnded(t, before, u, trace, NewOrder(order, key, true), result);
  }

  lemma ReleaseAgain(u: Thread, why: ReleaseReason, attempt: nat, x: Exchange)
    requires u.pc == AtRelease(why, attempt) && u.session.hold.Some? && attempt < MAX_RETRIES
    requires x.call == ReleaseHold(u.session.hold.value) && TimedOut(x.reply)
    ensures Fits(u, x) && Resume(u.pc, u.session, x.reply) == Go(AtRelease(why, attempt + 1))
  {
  }

  lemma ReleaseOver(u: Thread, why: ReleaseReason, attempt: nat, x: Exchange, result: Release)
    requires u.pc == AtRelease(why, attempt) && u.session.hold.Some?
    requires x.call == ReleaseHold(u.session.hold.value) && Answers(x.call, x.reply)
    requires ReleaseNext(attempt, MAX_RETRIES, x.reply) == Ended(result)
    ensures Fits(u, x) && Resume(u.pc, u.session, x.reply) == AfterRelease(why, u.session, result)
  {
  }

  lemma {:induction false} ReleaseTrying(t: Thread, before: seq<Exchange>, u: Thread, trace: seq<Exchange>,
                                         why: ReleaseReason)
    requires Exec(t, before) == Some(u) && u.pc == AtRelease(why, 0) && u.session.hold.Some?
    requires |trace| <= MAX_RETRIES
    requires forall i :: 0 <= i < |trace| ==>
               trace[i].call == ReleaseHold(u.session.hold.value) && TimedOut(trace[i].reply)
    ensures Exec(t, before + trace) == Some(u.(pc := AtRelease(why, |trace|)))
  {
    hide Resume, Exec;
    if trace == [] {
      assert before + trace == before;
    } else {
      var n := |trace| - 1;
      ReleaseTrying(t, before, u, trace[..n], why);
      assert before + trace == before + trace[..n] + [trace[n]];
      ReleaseAgain(u.(pc := AtRelease(why, n)), why, n, trace[n]);
      ExecAppend(t, before + trace[..n], trace[n]);
    }
  }

  /** A whole release loop inside a section. */
  lemma ReleaseEnded(t: Thread, before: seq<Exchange>, u: Thread, trace: seq<Exchange>, why: ReleaseReason,
                     result: Release)
    requires Exec(t, before) == Some(u) && u.pc == AtRelease(why, 0) && u.session.hold.Some?
    requires forall i :: 0 <= i < |trace| ==>
               trace[i].call == ReleaseHold(u.session.hold.value) && Answers(trace[i].call, trace[i].reply)
    requires ReleaseResult(MAX_RETRIES, Replies(trace), result)
    ensures Exec(t, before + trace) == Some(Absorb(u, AfterRelease(why, u.session, result)))
  {
    hide Resume, Exec, AfterLookup, AfterFulfill, AfterRelease;
    var n := |trace| - 1;
    forall i | 0 <= i < n ensures TimedOut(trace[..n][i].reply) {
      assert TimedOut(Replies(trace)[i]);
    }
    ReleaseTrying(t, before, u, trace[..n], why);
    assert before + trace == before + trace[..n] + [trace[n]];
    assert Replies(trace)[n] == trace[n].reply;
    ReleaseOver(u.(pc := AtRelease(why, n)), why, n, trace[n], result);
    ExecAppend(t, before + trace[..n], trace[n]);
  }
}
