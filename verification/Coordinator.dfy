/** The saga coordinator (src/saga/coordinator.py) with its stores, counters and gateways.

Every method runs one operation from the grant of its session lock to its end, awaiting the
gateways on the way.  Its contract says that what it wrote, counted and returned is what the
program of that operation does with the replies it got.
*/
module Coordinator {
  import opened Models
  import opened Gateways
  import opened Retries
  import opened Inventory
  import opened Cart
  import opened Metrics
  import opened Stores
  import opened Program
  import opened Sections

  /** Everything local to the orchestrator. */
  datatype Local = Local(sessions: map<Sid, Session>, records: map<(Sid, Key), Record>, counters: Counters)

  function PutIn(records: map<(Sid, Key), Record>, id: Sid, put: Option<(Key, Record)>): map<(Sid, Key), Record> {
    if put.None? then records else records[(id, put.value.0) := put.value.1]
  }

  /** The stores after a thread's section, given what they were before it. */
  function After(before: Local, id: Sid, t: Thread): Local {
    Local(before.sessions[id := t.session], PutIn(before.records, id, t.put), TallyAll(before.counters, t.events))
  }

  function CachedFor(before: Local, id: Sid, pc: Pc): Option<Record> {
    if CacheKey(pc).Some? then Find(before.records, (id, CacheKey(pc).value)) else None
  }

  function FirstThread(before: Local, id: Sid, pc: Pc, now: int): Thread
    requires WantsLock(pc) && id in before.sessions
  {
    Granted(pc, before.sessions[id], CachedFor(before, id, pc), now)
  }

  /** A whole section entered at `pc`, from `before` to `after` over `trace`, ending in `outcome`. */
  ghost predicate SectionRuns(before: Local, id: Sid, pc: Pc, now: int, trace: seq<Exchange>, after: Local,
                              outcome: Outcome)
    requires WantsLock(pc)
  {
    if id !in before.sessions then
      trace == [] && after == before && outcome == Raised(SessionNotFound)
    else
      var end := Exec(FirstThread(before, id, pc, now), trace);
      end.Some? && end.value.pc == Done(outcome) && after == After(before, id, end.value)
  }

  /** Hold and abandon sections do not read the clock. */
  lemma ClockIsIdle(before: Local, id: Sid, pc: Pc, now: int, trace: seq<Exchange>, after: Local, outcome: Outcome)
    requires WantsLock(pc) && !pc.AtConfirmLock? && SectionRuns(before, id, pc, now, trace, after, outcome)
    ensures forall later :: SectionRuns(before, id, pc, later, trace, after, outcome)
  {
    hide Exec;
    if id in before.sessions {
      forall later ensures FirstThread(before, id, pc, later) == FirstThread(before, id, pc, now) {
      }
    }
  }

  /** The stores after one effect on a section that has written nothing else. */
  function Written(before: Local, id: Sid, session: Session, e: Effect): Local {
    Local(before.sessions[id := if e.saved.Some? then e.saved.value else session],
          PutIn(before.records, id, e.put), Tally(before.counters, e.event))
  }

  lemma WrittenIsAfter(before: Local, id: Sid, t: Thread, e: Effect)
    requires t.put.None? && t.events == []
    ensures After(before, id, Absorb(t, e)) == Written(before, id, t.session, e)
    ensures Absorb(t, e).pc == e.pc
    ensures Absorb(t, e).session == if e.saved.Some? then e.saved.value else t.session
  {
    assert TallyAll(before.counters, []) == before.counters;
    if e.event.Some? {
    }
  }

  lemma StartWritesNothing(before: Local, id: Sid, t: Thread)
    requires t.put.None? && t.events == []
    ensures After(before, id, t) == Local(before.sessions[id := t.session], before.records, before.counters)
    ensures Exec(t, []) == Some(t)
  {
  }

  lemma FulfillStarts(session: Session, why: FulfillReason)
    requires why.NewOrder? && session.hold.Some?
    ensures var start := StartFulfill(why, session);
            Absorb(Thread(start.pc, session, None, []), start) == Thread(AtFulfill(why, 0), session, None, [])
  {
  }

  /** The end of a section whose order is known, written out. */
  lemma FinishNew(before: Local, id: Sid, idle: Thread, order: Order, key: Key, reconciled: bool, fulfilled: bool)
    requires idle.put.None? && idle.events == []
    ensures var s := idle.session;
            var u := Absorb(idle, AfterFulfill(NewOrder(order, key, reconciled), s, fulfilled));
            if fulfilled && s.state !in {Held, FulfillPending} then
              u.pc == Done(Raised(InvalidTransition)) && u.session == s
              && After(before, id, u) == Local(before.sessions[id := s], before.records, before.counters)
            else
              var state := if !fulfilled then FulfillPending else if reconciled then Reconciled else Confirmed;
              var final := s.(state := state, order := Some(order.id), key := Some(key));
              u.pc == Done(Returned(final, false)) && u.session == final
              && After(before, id, u) == Local(before.sessions[id := final],
                   before.records[(id, key) := RecordOf(final)],
                                               if fulfilled then Tally(before.counters,
                                                 Some(ConfirmSucceeded(reconciled))) else before.counters)
  {
    WrittenIsAfter(before, id, idle, AfterFulfill(NewOrder(order, key, reconciled), idle.session, fulfilled));
  }

  /** The end of a hold section, written out. */
  lemma FinishHold(before: Local, id: Sid, t: Thread, lines: seq<Line>, customer: string, reply: Reply)
    requires t.put.None? && t.events == [] && (reply.Failed? || reply.HoldMade?)
    ensures var u := Absorb(t, AfterCreateHold(lines, customer, Return, t.session, reply));
            match reply
            case Failed(f) =>
              u.pc == Done(Raised(Error.Gateway(f))) && u.session == t.session
              && After(before, id, u) == Local(before.sessions[id := t.session], before.records,
                                               Tally(before.counters, if f.Upstream? then Some(HoldFailed) else None))
            case HoldMade(hold, expires) =>
              var held := t.session.(state := Held, hold := Some(hold), expires := Some(expires),
                                     customer := Some(customer), lines := lines);
              u.pc == Done(Returned(held, false)) && u.session == held
              && After(before, id, u) == Local(before.sessions[id := held], before.records,
                   Tally(before.counters, Some(HoldPlaced)))
  {
    WrittenIsAfter(before, id, t, AfterCreateHold(lines, customer, Return, t.session, reply));
  }

  /** The end of a compensation, written out. */
  lemma FinishCompensation(before: Local, id: Sid, t: Thread, cause: Failure, released: Release)
    requires t.put.None? && t.events == []
    ensures var u := Absorb(t, AfterRelease(Compensating(cause), t.session, released));
            match released
            case Ok(true) =>
              var final := if t.session.state == Held then t.session.(state := Compensated, key := None) else t.session;
              u.pc == Done(Raised(Rethrown(cause))) && u.session == final
              && After(before, id, u) == Local(before.sessions[id := final], before.records,
                   Tally(before.counters, Some(CompensationDone)))
            case _ =>
              u.pc == Done(Raised(if released.Err? then Error.Gateway(released.error) else CompensationIncomplete))
              && u.session == t.session
              && After(before, id, u) == Local(before.sessions[id := t.session], before.records, before.counters)
  {
    WrittenIsAfter(before, id, t, AfterRelease(Compensating(cause), t.session, released));
  }

  /** The end of an abandon section, written out. */
  lemma FinishAbandoned(before: Local, id: Sid, t: Thread)
    requires t.put.None? && t.events == []
    ensures var abandoned := t.session.(state := Abandoned);
            var u := Absorb(t, FinishAbandon(t.session));
            && u.pc == Done(Returned(abandoned, false)) && u.session == abandoned
            && After(before, id, u) == Local(before.sessions[id := abandoned], before.records,
                 Tally(before.counters, Some(AbandonDone)))
  {
    WrittenIsAfter(before, id, t, FinishAbandon(t.session));
  }

  lemma StartHoldNext(catalog: Catalog, items: seq<Item>, customer: string, session: Option<Session>, next: AfterHold)
    ensures var plain := StartHold(catalog, items, customer, session, Return);
            match plain.pc
            case AtHoldLock(lines, name, after) =>
              name == customer && after == Return
                && StartHold(catalog, items, customer, session, next) == Go(AtHoldLock(lines, name, next))
            case _ =>
              plain.pc.Done? && plain.pc.outcome.Raised? && plain.saved.None?
                && StartHold(catalog, items, customer, session, next) == plain
  {
  }

  lemma AbandonEnters(session: Session)
    ensures var idle := Thread(AtAbandonLock, session, None, []);
            var first := Absorb(idle, EnterAbandon(Some(session)));
            if session.IsTerminal() || session.state == FulfillPending then first
              == idle.(pc := Done(Raised(InvalidTransition)))
            else if session.state == Held && session.hold.Some? then first == idle.(pc := AtRelease(Abandoning, 0))
            else first == Absorb(idle, FinishAbandon(session))
  {
  }

  lemma ReplayEnters(customer: Option<string>, key: Key, session: Session, cached: Record, now: int)
    ensures EnterConfirm(customer, key, Some(session), Some(cached), now) == ReplayConfirm(key, session, cached)
  {
  }

  lemma AbsorbGo(t: Thread, pc: Pc)
    ensures Absorb(t, Go(pc)) == t.(pc := pc)
  {
  }

  /** Both halves of place_order: a hold section when the session is new, then a confirm section.  They
      are granted their lock in `first` and `second`; `middle` is the state after the hold section, which
      made `n` exchanges. */
  ghost predicate BothRun(first: Local, id: Sid, lines: seq<Line>, name: string, key: Key, now: int,
                          trace: seq<Exchange>,
                          n: nat, middle: Local, second: Local, after: Local, outcome: Outcome)
  {
    && n <= |trace|
    && exists held :: (
         && SectionRuns(first, id, AtHoldLock(lines, name, Return), 0, trace[..n], middle, held)
         && if held.Raised? then outcome == held && n == |trace| && after == middle
            else SectionRuns(second, id, AtConfirmLock(Some(name), key), now, trace[n..], after, outcome))
  }

  /** What _create_order_with_retry raises. */
  datatype CreateError = GatewayRaised(failure: Failure) | StatusUnknownRaised

  class SagaCoordinator {
    const sessions: LockedSessionStore
    const idempotency: InMemoryIdempotencyStore
    const metrics: MetricsRegistry
    const gateway: Gateway

    constructor (sessions: LockedSessionStore, idempotency: InMemoryIdempotencyStore, metrics: MetricsRegistry,
                 gateway: Gateway)
      ensures this.sessions == sessions && this.idempotency == idempotency
      ensures this.metrics == metrics && this.gateway == gateway
    {
      this.sessions, this.idempotency, this.metrics, this.gateway := sessions, idempotency, metrics, gateway;
    }

    function Value(): Local
      reads sessions.inner, idempotency, metrics
    {
      Local(sessions.inner.sessions, idempotency.records, metrics.Value())
    }

    /** Sessions are stored under their own id. */
    ghost predicate Keyed()
      reads sessions.inner
    {
      forall id :: id in sessions.inner.sessions ==> sessions.inner.sessions[id].id == id
    }

    /** A section that began as `first` with the log at `mark` has come to thread `t`; the stores
        show exactly the thread's writes. */
    ghost predicate At(before: Local, id: Sid, first: Thread, mark: nat, t: Thread)
      reads sessions.inner, idempotency, metrics, gateway
    {
      && mark <= |gateway.log| && Exec(first, gateway.log[mark..]) == Some(t)
      && t.session.id == id && id in before.sessions
      && Value() == After(before, id, t)
    }

    /** Nothing has been written yet. */
    ghost predicate Untouched(before: Local, id: Sid, session: Session)
      reads sessions.inner, idempotency, metrics
    {
      && session.id == id && id in before.sessions
      && Value() == Local(before.sessions[id := session], before.records, before.counters)
    }

    /** The section is over. */
    ghost predicate AtEnd(before: Local, id: Sid, first: Thread, mark: nat, outcome: Outcome)
      reads sessions.inner, idempotency, metrics, gateway
    {
      && mark <= |gateway.log|
      && var end := Exec(first, gateway.log[mark..]);
         end.Some? && end.value.pc == Done(outcome) && Value() == After(before, id, end.value)
         && end.value.session.id == id
    }

    // ----- Waiting for a lock ------------------------------------------------------------------------

    /** What other operations do to the stores before this one gets its lock: anything, but sessions stay
        stored under their own id. */
    method OthersRun(id: Sid)
      requires id in sessions.locks
      modifies sessions`locks, sessions.inner, idempotency, metrics
      ensures Keyed() && id in sessions.locks && !sessions.locks[id]
    {
      ghost var none: map<Sid, Session> := map[];
      assert forall i :: i in none ==> none[i].id == i;
      var stored: map<Sid, Session> :| forall i :: i in stored ==> stored[i].id == i;
      sessions.inner.sessions := stored;
      sessions.locks := *;
      sessions.locks := sessions.locks[id := false];
      idempotency.records := *;
      metrics.holdsPlaced, metrics.holdsFailed, metrics.confirmsSuccess, metrics.confirmsReconciled := *, *, *, *;
      metrics.compensations, metrics.abandons, metrics.statusUnknown := *, *, *;
    }

    /** Getting the session lock: at once if it is free and nobody waits for it (`contended`), and after
        whatever others do otherwise. */
    method EnterLock(id: Sid, contended: bool)
      requires Keyed()
      modifies sessions`locks, sessions.inner, idempotency, metrics
      ensures Keyed() && id in sessions.locks && sessions.locks[id]
      ensures old(sessions.Free(id)) && !contended ==> Value() == old(Value())
    {
      sessions.LockFor(id);
      if sessions.locks[id] || contended {
        OthersRun(id);
      }
      sessions.Acquire(id);
    }

    // ----- place_hold ------------------------------------------------------------------------

    /** `granted` is the state in which the lock was granted. */
    method PlaceHold(id: Sid, items: seq<Item>, customer: string, catalog: Catalog, contended: bool)
      returns (outcome: Outcome, ghost granted: Local)
      requires Keyed()
      modifies sessions`locks, sessions.inner, idempotency, metrics, gateway
      ensures old(gateway.log) <= gateway.log && Keyed()
      ensures var trace := gateway.log[|old(gateway.log)|..];
              var start := StartHold(catalog, items, customer, Find(old(Value()).sessions, id), Return);
              if start.pc.Done? then
                outcome == start.pc.outcome && trace == [] && Value() == old(Value())
                  && sessions.locks == old(sessions.locks)
              else sessions.Free(id) && forall now :: SectionRuns(granted, id, start.pc, now, trace, Value(), outcome)
      ensures old(sessions.Free(id)) && !contended ==> granted == old(Value())
      ensures outcome.Returned? ==> id in sessions.inner.sessions && sessions.inner.sessions[id].state == Held
    {
      granted := Value();
      assert gateway.log[|gateway.log|..] == [];
      if items == [] {
        return Raised(InvalidTransition), granted;
      }
      var built := BuildLines(catalog, items);
      if built.Err? {
        return Raised(built.error), granted;
      }
      var lines := built.value;
      var unlocked := sessions.Get(id);
      if unlocked.None? {
        return Raised(SessionNotFound), granted;
      }
      if unlocked.value.state != Created {
        return Raised(InvalidTransition), granted;
      }
      EnterLock(id, contended);
      granted := Value();
      ghost var mark := |gateway.log|;
      outcome := PlaceHoldLocked(id, lines, customer);
      ClockIsIdle(granted, id, AtHoldLock(lines, customer, Return), 0, gateway.log[mark..], Value(), outcome);
      sessions.Release(id);
    }

    method PlaceHoldLocked(id: Sid, lines: seq<Line>, customer: string) returns (outcome: Outcome)
      requires Keyed()
      modifies sessions.inner, idempotency, metrics, gateway
      ensures old(gateway.log) <= gateway.log && Keyed()
      ensures SectionRuns(old(Value()), id, AtHoldLock(lines, customer, Return), 0,
                          gateway.log[|old(gateway.log)|..], Value(), outcome)
      ensures outcome.Returned? ==> id in sessions.inner.sessions && sessions.inner.sessions[id].state == Held
    {
      ghost var before, mark := Value(), |gateway.log|;
      assert gateway.log[mark..] == [];
      var found := sessions.Get(id);
      if found.None? {
        return Raised(SessionNotFound);
      }
      var session := found.value;
      ghost var first := FirstThread(before, id, AtHoldLock(lines, customer, Return), 0);
      if session.state != Created {
        return Raised(InvalidTransition);
      }
      assert first == Thread(AtStock(lines, customer, Return), session, None, []);
      outcome := HoldLocked(id, session, lines, customer, before, first, mark);
    }

    /** The first line short of stock; none when the inventory cannot be read. */
    method AssertSufficientStockForLines(lines: seq<Line>) returns (short: Option<Line>)
      modifies gateway`log
      ensures |gateway.log| == |old(gateway.log)| + 1 && old(gateway.log) == gateway.log[..|old(gateway.log)|]
      ensures var x := gateway.log[|old(gateway.log)|];
              && x.call == GetInventory && Answers(x.call, x.reply)
              && short == if x.reply.Stock? then FirstShort(lines, x.reply.levels) else None
    {
      var stock := gateway.Await(GetInventory);
      if stock.Failed? {
        return None;
      }
      short := AssertSufficientStock(lines, stock.levels);
    }

    /** place_hold, from the point where the session was found CREATED under its lock. */
    method HoldLocked(id: Sid, session: Session, lines: seq<Line>, customer: string,
                      ghost before: Local, ghost first: Thread, ghost mark: nat)
      returns (outcome: Outcome)
      requires Untouched(before, id, session) && mark == |gateway.log|
      requires first == Thread(AtStock(lines, customer, Return), session, None, [])
      modifies sessions.inner, metrics, gateway
      ensures old(gateway.log) <= gateway.log
      ensures AtEnd(before, id, first, mark, outcome)
      ensures outcome.Returned? ==> id in sessions.inner.sessions && sessions.inner.sessions[id].state == Held
    {
      hide Exec, Resume, TallyAll, After, Absorb, FirstShort, AfterCreateHold;
      assert gateway.log[mark..] == [];
      StartWritesNothing(before, id, first);
      var short := AssertSufficientStockForLines(lines);
      ghost var stock := gateway.log[mark].reply;
      assert gateway.log[mark..] == [] + [Exchange(GetInventory, stock)];
      StockEnded(first, [], first, lines, customer, Return, stock);
      WrittenIsAfter(before, id, first, AfterStock(lines, customer, Return, stock));
      if short.Some? {
        return Raised(InsufficientStock);
      }
      ghost var t := first.(pc := AtCreateHold(lines, customer, Return));
      AbsorbGo(first, AtCreateHold(lines, customer, Return));
      ghost var trace := gateway.log[mark..];
      var reply := gateway.Await(CreateHold(HoldItems(lines)));
      assert gateway.log[mark..] == trace + [Exchange(CreateHold(HoldItems(lines)), reply)];
      CreateHoldEnded(first, trace, t, lines, customer, Return, reply);
      FinishHold(before, id, t, lines, customer, reply);
      if reply.Failed? {
        if reply.why.Upstream? {
          metrics.Increment(HoldsFailedTotal, 1);
        }
        return Raised(Error.Gateway(reply.why));
      }
      var updated := session.(state := Held, hold := Some(reply.hold), expires := Some(reply.expires),
                              customer := Some(customer), lines := lines);
      var saved := sessions.Save(updated);
      metrics.Increment(HoldsPlacedTotal, 1);
      outcome := Returned(saved, false);
    }

    // ----- confirm ---------------------------------------------------------------------------------

    method Confirm(id: Sid, customer: Option<string>, key: Key, now: int, contended: bool)
      returns (outcome: Outcome, ghost granted: Local)
      requires Keyed()
      modifies sessions`locks, sessions.inner, idempotency, metrics, gateway
      ensures old(gateway.log) <= gateway.log && Keyed() && sessions.Free(id)
      ensures SectionRuns(granted, id, AtConfirmLock(customer, key), now, gateway.log[|old(gateway.log)|..], Value(),
                outcome)
      ensures old(sessions.Free(id)) && !contended ==> granted == old(Value())
    {
      hide Exec, Resume, TallyAll, ReplayConfirm, EnterConfirm;
      EnterLock(id, contended);
      granted := Value();
      ghost var before, mark := granted, |gateway.log|;
      assert gateway.log[mark..] == [];
      var cached := idempotency.Get(id, key);
      var found := sessions.Get(id);
      if found.None? {
        outcome := Raised(SessionNotFound);
      } else {
        ghost var first := FirstThread(before, id, AtConfirmLock(customer, key), now);
        if cached.Some? {
          ReplayEnters(customer, key, found.value, cached.value, now);
          outcome := ReplayLocked(id, found.value, key, cached.value, before, first, mark);
        } else {
          outcome := ConfirmLocked(id, found.value, customer, key, now, before, first, mark);
        }
      }
      sessions.Release(id);
    }

    /** confirm, from the point where a cached record was found. */
    method ReplayLocked(id: Sid, found: Session, key: Key, cached: Record, ghost before: Local, ghost first: Thread,
                        ghost mark: nat)
      returns (outcome: Outcome)
      requires found.id == id && Find(sessions.inner.sessions, id) == Some(found)
      requires before == Value() && mark == |gateway.log|
      requires first == Absorb(Thread(first.pc, found, None, []), ReplayConfirm(key, found, cached))
      modifies sessions.inner, idempotency, metrics, gateway
      ensures old(gateway.log) <= gateway.log
      ensures AtEnd(before, id, first, mark, outcome)
    {
      assert gateway.log[mark..] == [];
      var session := found;
      var repaired := Repaired(session, cached, {Held, FulfillPending});
      if repaired.Some? {
        session := sessions.Save(repaired.value);
      }
      assert At(before, id, first, mark, first);
      if session.state == FulfillPending {
        outcome := RetryFulfillPendingLocked(id, session, key, true, before, first, mark, first);
        return;
      }
      if session.hold.Some? && session.IsTerminal() {
        var settled := Fulfilled(session, CachedReplay, first, mark, first);
      }
      outcome := Returned(session, true);
    }

    /** fulfill_hold_safe awaited inside a section. */
    method Fulfilled(session: Session, ghost why: FulfillReason, ghost first: Thread, ghost mark: nat, ghost t: Thread)
      returns (fulfilled: bool)
      requires mark <= |gateway.log| && Exec(first, gateway.log[mark..]) == Some(t)
      requires t.session == session && session.hold.Some? && t.pc == AtFulfill(why, 0)
      modifies gateway
      ensures old(gateway.log) <= gateway.log
      ensures Exec(first, gateway.log[mark..]) == Some(Absorb(t, AfterFulfill(why, session, fulfilled)))
    {
      hide Exec, Resume, AfterFulfill, AfterLookup, AfterRelease, FindResult, FulfillResult, ReleaseResult;
      ghost var trace := gateway.log[mark..];
      ghost var all := |gateway.log|;
      fulfilled := FulfillHoldSafe(gateway, session.hold.value, MAX_RETRIES);
      assert gateway.log[mark..] == trace + gateway.log[all..];
      FulfillEnded(first, trace, t, gateway.log[all..], why, fulfilled);
    }

    method RetryFulfillPendingLocked(id: Sid, session: Session, key: Key, fromCache: bool,
                                     ghost before: Local, ghost first: Thread, ghost mark: nat, ghost t: Thread)
      returns (outcome: Outcome)
      requires At(before, id, first, mark, t) && Untouched(before, id, session)
      requires t == Thread(StartPending(session, key, fromCache).pc, session, None, [])
      modifies sessions.inner, idempotency, metrics, gateway
      ensures old(gateway.log) <= gateway.log
      ensures AtEnd(before, id, first, mark, outcome)
    {
      hide Exec, Resume, FindResult, FulfillResult, ReleaseResult, BackOff, TallyAll, After, Absorb;
      if session.hold.None? || session.order.None? {
        return Raised(InvalidTransition);
      }
      var fulfilled := Fulfilled(session, Pending(key, fromCache), first, mark, t);
      WrittenIsAfter(before, id, t, AfterFulfill(Pending(key, fromCache), session, fulfilled));
      if !fulfilled {
        return Returned(session, fromCache);
      }
      var result := FinalizeSuccessLocked(session, session.order.value, key, Confirmed);
      if result.Raised? {
        return result;
      }
      metrics.RecordConfirmSuccess(false);
      outcome := Returned(result.session, fromCache);
    }

    method FinalizeSuccessLocked(session: Session, order: OrderId, key: Key, terminal: SessionState)
      returns (result: Outcome)
      modifies sessions.inner, idempotency
      ensures session.state !in {Held, FulfillPending} ==>
                && result == Raised(InvalidTransition)
                && sessions.inner.sessions == old(sessions.inner.sessions)
                     && idempotency.records == old(idempotency.records)
      ensures session.state in {Held, FulfillPending} ==>
                var final := session.(state := terminal, order := Some(order), key := Some(key));
                && result == Returned(final, false)
                && sessions.inner.sessions == old(sessions.inner.sessions)[session.id := final]
                && idempotency.records == old(idempotency.records)[(session.id, key) := RecordOf(final)]
    {
      if session.state !in {Held, FulfillPending} {
        return Raised(InvalidTransition);
      }
      var saved := sessions.Save(session.(state := terminal, order := Some(order), key := Some(key)));
      var body := Body(saved.id, saved.ref, saved.state, saved.hold, Some(order), saved.expires);
      idempotency.Put(saved.id, key, Record(200, body, Some(order)));
      result := Returned(saved, false);
    }

    /** confirm, from the point where no cached record was found. */
    method ConfirmLocked(id: Sid, session: Session, customer: Option<string>, key: Key, now: int,
                         ghost before: Local, ghost first: Thread, ghost mark: nat)
      returns (outcome: Outcome)
      requires session.id == id && Find(sessions.inner.sessions, id) == Some(session)
      requires before == Value() && mark == |gateway.log|
      requires first == Absorb(Thread(first.pc, session, None, []),
                 EnterConfirm(customer, key, Some(session), None, now))
      modifies sessions.inner, idempotency, metrics, gateway
      ensures old(gateway.log) <= gateway.log
      ensures AtEnd(before, id, first, mark, outcome)
    {
      assert gateway.log[mark..] == [];
      assert At(before, id, first, mark, first);
      if session.state == FulfillPending {
        if session.key != Some(key) {
          return Raised(InvalidTransition);
        }
        outcome := RetryFulfillPendingLocked(id, session, key, false, before, first, mark, first);
        return;
      }
      if session.state != Held {
        return Raised(InvalidTransition);
      }
      if session.key.Some? {
        if session.key != Some(key) {
          return Raised(InvalidTransition);
        }
        outcome := ResolveExistingOrderAttemptLocked(id, session, key, before, first, mark, first);
        return;
      }
      if session.lines == [] {
        return Raised(InvalidTransition);
      }
      if session.expires.Some? && session.expires.value <= now {
        return Raised(HoldExpired);
      }
      var resolved := OrElse(customer, session.customer);
      if resolved.None? || resolved.value == "" {
        return Raised(InvalidTransition);
      }
      outcome := OrderLocked(id, session, resolved.value, key, before, first, mark);
    }

    /** The try block of confirm and its except clauses. */
    method OrderLocked(id: Sid, session: Session, customer: string, key: Key,
                       ghost before: Local, ghost first: Thread, ghost mark: nat)
      returns (outcome: Outcome)
      requires Untouched(before, id, session) && mark == |gateway.log|
      requires first == Thread(AtLookup(BeforePost(customer, key), 0, 0), session, None, [])
      modifies sessions.inner, idempotency, metrics, gateway
      ensures old(gateway.log) <= gateway.log
      ensures AtEnd(before, id, first, mark, outcome)
    {
      hide Exec, Resume, TallyAll, After, FindResult, FulfillResult, ReleaseResult, BackOff;
      assert gateway.log[mark..] == [];
      StartWritesNothing(before, id, first);
      var payload := OrderPayload(session, customer);
      var existing := Looked(session, BeforePost(customer, key), 0, first, mark, first);
      ghost var t := Absorb(first, AfterLookup(BeforePost(customer, key), session, existing));
      var failure: CreateError;
      if existing.Ok? && existing.value.Some? {
        outcome := CompleteOrderAfterCreateLocked(id, session, existing.value.value, key, true, before, first, mark, t);
        return;
      } else if existing.Ok? {
        var created := CreateOrderWithRetry(session, payload, key, first, mark, t);
        if created.Ok? {
          var (order, reconciled) := created.value;
          t := Absorb(t, StartFulfill(NewOrder(order, key, reconciled), session));
          outcome := CompleteOrderAfterCreateLocked(id, session, order, key, reconciled, before, first, mark, t);
          return;
        }
        failure := created.error;
        t := Absorb(t, if failure.StatusUnknownRaised? then Pin(session, key)
          else Compensate(session, failure.failure));
      } else {
        failure := GatewayRaised(existing.error);
      }
      outcome := OrderFailed(id, session, key, failure, before, first, mark, t);
    }

    /** The except clauses of confirm, in their order. */
    method OrderFailed(id: Sid, session: Session, key: Key, failure: CreateError,
                       ghost before: Local, ghost first: Thread, ghost mark: nat, ghost t: Thread)
      returns (outcome: Outcome)
      requires Untouched(before, id, session)
      requires mark <= |gateway.log| && Exec(first, gateway.log[mark..]) == Some(t)
      requires var e := if failure.StatusUnknownRaised? then Pin(session, key)
                 else Compensate(session, failure.failure);
               t == Absorb(Thread(e.pc, session, None, []), e)
      modifies sessions.inner, metrics, gateway
      ensures old(gateway.log) <= gateway.log
      ensures AtEnd(before, id, first, mark, outcome)
    {
      hide Exec, Resume, TallyAll, After, ReleaseResult, BackOff;
      match failure {
        case GatewayRaised(Upstream(_)) =>
          var incomplete := CompensateAndFailLocked(id, session, failure.failure, before, first, mark, t);
          outcome := Raised(if incomplete.Some? then incomplete.value else Error.Gateway(failure.failure));
        case GatewayRaised(Timeout) =>
          var incomplete := CompensateAndFailLocked(id, session, Timeout, before, first, mark, t);
          outcome := Raised(if incomplete.Some? then incomplete.value else CompensationIncomplete);
        case StatusUnknownRaised =>
          WrittenIsAfter(before, id, Thread(t.pc, session, None, []), Pin(session, key));
          var saved := sessions.Save(session.(key := Some(key)));
          metrics.Increment(OrderStatusUnknownTotal, 1);
          outcome := Raised(OrderStatusUnknown);
        case GatewayRaised(Transport) =>
          var incomplete := CompensateAndFailLocked(id, session, Transport, before, first, mark, t);
          outcome := Raised(if incomplete.Some? then incomplete.value else Error.Gateway(Transport));
      }
    }

    /** find_order_by_reference awaited inside a section. */
    method Looked(session: Session, ghost why: LookupReason, maxRetries: nat, ghost first: Thread, ghost mark: nat,
                  ghost t: Thread)
      returns (result: Lookup)
      requires mark <= |gateway.log| && Exec(first, gateway.log[mark..]) == Some(t)
      requires t.session == session && t.pc == AtLookup(why, 0, maxRetries)
      modifies gateway
      ensures old(gateway.log) <= gateway.log
      ensures Exec(first, gateway.log[mark..]) == Some(Absorb(t, AfterLookup(why, session, result)))
    {
      hide Exec, Resume, AfterFulfill, AfterLookup, AfterRelease, FindResult, FulfillResult, ReleaseResult;
      ghost var trace := gateway.log[mark..];
      ghost var all := |gateway.log|;
      result := FindOrderByReference(gateway, session.ref, maxRetries);
      assert gateway.log[mark..] == trace + gateway.log[all..];
      LookupEnded(first, trace, t, gateway.log[all..], why, maxRetries, result);
    }

    method CreateOrderWithRetry(session: Session, payload: OrderBody, key: Key, ghost first: Thread, ghost mark: nat,
                                ghost t: Thread)
      returns (result: Result<(Order, bool), CreateError>)
      requires mark <= |gateway.log| && Exec(first, gateway.log[mark..]) == Some(t)
      requires t.session == session && t.pc.AtPost? && t.pc.key == key
      requires payload == OrderPayload(session, t.pc.customer)
      modifies gateway
      ensures old(gateway.log) <= gateway.log
      ensures var e := match result
                       case Ok((order, reconciled)) => StartFulfill(NewOrder(order, key, reconciled), session)
                       case Err(GatewayRaised(f)) => Compensate(session, f)
                       case Err(StatusUnknownRaised) => Pin(session, key);
              Exec(first, gateway.log[mark..]) == Some(Absorb(t, e))
    {
      hide Exec, Resume, FindResult, FulfillResult, ReleaseResult, BackOff;
      ghost var trace := gateway.log[mark..];
      var reply := gateway.Await(PostOrder(payload, key));
      assert gateway.log[mark..] == trace + [Exchange(PostOrder(payload, key), reply)];
      PostEnded(first, trace, t, t.pc.customer, key, reply);
      ghost var u := Absorb(t, AfterPost(session, key, reply));
      match reply {
        case Placed(order) =>
          return Ok((order, false));
        case Failed(Upstream(status)) =>
          if status == 409 {
            var found := Looked(session, AfterConflict(key), MAX_RETRIES, first, mark, u);
            if found.Err? {
              return Err(GatewayRaised(found.error));
            }
            if found.value.Some? {
              return Ok((found.value.value, true));
            }
          }
          return Err(GatewayRaised(reply.why));
        case Failed(Timeout) =>
          var found := Looked(session, AfterTimeout(key), MAX_RETRIES, first, mark, u);
          if found.Err? {
            return Err(StatusUnknownRaised);
          }
          if found.value.Some? {
            return Ok((found.value.value, true));
          }
          return Err(GatewayRaised(Timeout));
        case Failed(Transport) =>
          return Err(GatewayRaised(Transport));
      }
    }

    method ResolveExistingOrderAttemptLocked(id: Sid, session: Session, key: Key,
                                             ghost before: Local, ghost first: Thread, ghost mark: nat, ghost t: Thread)
      returns (outcome: Outcome)
      requires At(before, id, first, mark, t)
      requires t == Thread(AtLookup(Unresolved(key), 0, MAX_RETRIES), session, None, [])
      modifies sessions.inner, idempotency, metrics, gateway
      ensures old(gateway.log) <= gateway.log
      ensures AtEnd(before, id, first, mark, outcome)
    {
      hide Exec, Resume, FindResult, FulfillResult, ReleaseResult, BackOff;
      var found := Looked(session, Unresolved(key), MAX_RETRIES, first, mark, t);
      if found.Err? {
        return Raised(OrderStatusUnknown);
      }
      if found.value.Some? {
        ghost var u := Absorb(t, AfterLookup(Unresolved(key), session, found));
        outcome := CompleteOrderAfterCreateLocked(id, session, found.value.value, key, true, before, first, mark, u);
        return;
      }
      outcome := Raised(OrderStatusUnknown);
    }

    method CompleteOrderAfterCreateLocked(id: Sid, session: Session, order: Order, key: Key, reconciled: bool,
                                          ghost before: Local, ghost first: Thread, ghost mark: nat, ghost t: Thread)
      returns (outcome: Outcome)
      requires Untouched(before, id, session)
      requires mark <= |gateway.log| && Exec(first, gateway.log[mark..]) == Some(t)
      requires var start := StartFulfill(NewOrder(order, key, reconciled), session);
               t == Absorb(Thread(start.pc, session, None, []), start)
      modifies sessions.inner, idempotency, metrics, gateway
      ensures old(gateway.log) <= gateway.log
      ensures AtEnd(before, id, first, mark, outcome)
    {
      hide Exec, Resume, FindResult, FulfillResult, ReleaseResult, BackOff, TallyAll, After, Absorb, AfterFulfill;
      ghost var why := NewOrder(order, key, reconciled);
      ghost var idle := Thread(StartFulfill(why, session).pc, session, None, []);
      var fulfilled := true;
      if session.hold.Some? {
        FulfillStarts(session, why);
        fulfilled := Fulfilled(session, why, first, mark, t);
      }
      FinishNew(before, id, idle, order, key, reconciled, fulfilled);
      if !fulfilled {
        var pending := sessions.Save(session.(state := FulfillPending, order := Some(order.id), key := Some(key)));
        CacheConfirmResponse(pending, key, FulfillPending);
        return Returned(pending, false);
      }
      var terminal := if reconciled then Reconciled else Confirmed;
      var result := FinalizeSuccessLocked(session, order.id, key, terminal);
      if result.Returned? {
        metrics.RecordConfirmSuccess(reconciled);
      }
      outcome := result;
    }

    method CacheConfirmResponse(session: Session, key: Key, state: SessionState)
      modifies idempotency
      ensures idempotency.records == old(idempotency.records)[(session.id, key) :=
                Record(200, Body(session.id, session.ref, state, session.hold, session.order, session.expires),
                  session.order)]
    {
      var body := Body(session.id, session.ref, state, session.hold, session.order, session.expires);
      idempotency.Put(session.id, key, Record(200, body, session.order));
    }

    /** Returns the error it raises itself, if any; otherwise the caller re-raises. */
    method CompensateAndFailLocked(id: Sid, session: Session, cause: Failure,
                                   ghost before: Local, ghost first: Thread, ghost mark: nat, ghost t: Thread)
      returns (raised: Option<Error>)
      requires Untouched(before, id, session)
      requires mark <= |gateway.log| && Exec(first, gateway.log[mark..]) == Some(t)
      requires t == Thread(Compensate(session, cause).pc, session, None, [])
      modifies sessions.inner, metrics, gateway
      ensures old(gateway.log) <= gateway.log
      ensures AtEnd(before, id, first, mark, Raised(if raised.Some? then raised.value else Rethrown(cause)))
    {
      StartWritesNothing(before, id, t);
      hide Exec, Resume, FindResult, FulfillResult, ReleaseResult, BackOff, TallyAll, After, Absorb, AfterRelease,
        Rethrown;
      if session.hold.None? {
        return None;
      }
      var released := ReleasedIn(session, Compensating(cause), first, mark, t);
      FinishCompensation(before, id, t, cause, released);
      if released.Err? {
        return Some(Error.Gateway(released.error));
      }
      if !released.value {
        return Some(CompensationIncomplete);
      }
      if session.state == Held {
        var saved := sessions.Save(session.(state := Compensated, key := None));
      }
      metrics.Increment(CompensationsTotal, 1);
      raised := None;
    }

    /** release_hold_safe awaited inside a section. */
    method ReleasedIn(session: Session, ghost why: ReleaseReason, ghost first: Thread, ghost mark: nat, ghost t: Thread)
      returns (result: Release)
      requires mark <= |gateway.log| && Exec(first, gateway.log[mark..]) == Some(t)
      requires t.session == session && session.hold.Some? && t.pc == AtRelease(why, 0)
      modifies gateway
      ensures old(gateway.log) <= gateway.log
      ensures Exec(first, gateway.log[mark..]) == Some(Absorb(t, AfterRelease(why, session, result)))
    {
      hide Exec, Resume, AfterFulfill, AfterLookup, AfterRelease, FindResult, FulfillResult, ReleaseResult;
      ghost var trace := gateway.log[mark..];
      ghost var all := |gateway.log|;
      result := ReleaseHoldSafe(gateway, session.hold.value, MAX_RETRIES);
      assert gateway.log[mark..] == trace + gateway.log[all..];
      ReleaseEnded(first, trace, t, gateway.log[all..], why, result);
    }

    // ----- abandon -----------------------------------------------------------------------------------

    method Abandon(id: Sid, contended: bool) returns (outcome: Outcome, ghost granted: Local)
      requires Keyed()
      modifies sessions`locks, sessions.inner, idempotency, metrics, gateway
      ensures old(gateway.log) <= gateway.log && Keyed() && sessions.Free(id)
      ensures forall now :: SectionRuns(granted, id, AtAbandonLock, now, gateway.log[|old(gateway.log)|..], Value(),
                outcome)
      ensures old(sessions.Free(id)) && !contended ==> granted == old(Value())
    {
      EnterLock(id, contended);
      granted := Value();
      ghost var mark := |gateway.log|;
      outcome := AbandonLocked(id);
      ClockIsIdle(granted, id, AtAbandonLock, 0, gateway.log[mark..], Value(), outcome);
      sessions.Release(id);
    }

    method AbandonLocked(id: Sid) returns (outcome: Outcome)
      requires Keyed()
      modifies sessions.inner, metrics, gateway
      ensures old(gateway.log) <= gateway.log && Keyed()
      ensures SectionRuns(old(Value()), id, AtAbandonLock, 0, gateway.log[|old(gateway.log)|..], Value(), outcome)
    {
      ghost var before, mark := Value(), |gateway.log|;
      assert gateway.log[mark..] == [];
      var found := sessions.Get(id);
      if found.None? {
        return Raised(SessionNotFound);
      }
      var session := found.value;
      ghost var first := FirstThread(before, id, AtAbandonLock, 0);
      outcome := AbandonFound(id, session, before, first, mark);
    }

    method AbandonFound(id: Sid, session: Session, ghost before: Local, ghost first: Thread, ghost mark: nat)
      returns (outcome: Outcome)
      requires Untouched(before, id, session) && mark == |gateway.log|
      requires first == Absorb(Thread(AtAbandonLock, session, None, []), EnterAbandon(Some(session)))
      modifies sessions.inner, metrics, gateway
      ensures old(gateway.log) <= gateway.log
      ensures AtEnd(before, id, first, mark, outcome)
    {
      assert gateway.log[mark..] == [];
      assert Exec(first, []) == Some(first);
      hide Exec, Resume, ReleaseResult, BackOff, TallyAll, After, Absorb, FinishAbandon, EnterAbandon;
      ghost var idle := Thread(AtAbandonLock, session, None, []);
      AbandonEnters(session);
      StartWritesNothing(before, id, first.(session := session, put := None, events := []));
      FinishAbandoned(before, id, idle);
      if session.IsTerminal() {
        return Raised(InvalidTransition);
      }
      if session.state == FulfillPending {
        return Raised(InvalidTransition);
      }
      if session.state == Held && session.hold.Some? {
        var released := ReleasedIn(session, Abandoning, first, mark, first);
        WrittenIsAfter(before, id, first, AfterRelease(Abandoning, session, released));
        FinishAbandoned(before, id, first);
        if released.Err? {
          return Raised(Error.Gateway(released.error));
        }
        if !released.value {
          return Raised(CompensationIncomplete);
        }
      }
      var saved := sessions.Save(session.(state := Abandoned));
      metrics.Increment(AbandonsTotal, 1);
      outcome := Returned(saved, false);
    }

    // ----- place_order ---------------------------------------------------------------------------------

    /** The states of the two lock grants and the one between them, and the exchanges of the hold section. */
    method PlaceOrder(id: Sid, items: seq<Item>, customer: string, key: Key, catalog: Catalog, now: int,
                      contended: bool, contendedAgain: bool)
      returns (outcome: Outcome, ghost n: nat, ghost first: Local, ghost middle: Local, ghost second: Local)
      requires Keyed()
      modifies sessions`locks, sessions.inner, idempotency, metrics, gateway
      ensures old(gateway.log) <= gateway.log && Keyed()
      ensures var before, trace := old(Value()), gateway.log[|old(gateway.log)|..];
              var start := Start(Op.PlaceOrder(items, customer, key), catalog, Find(before.sessions, id),
                Find(before.records, (id, key)));
              if start.pc.Done? then
                && outcome == start.pc.outcome && trace == [] && sessions.locks == old(sessions.locks)
                && Value() == (if start.saved.Some? then before.(sessions := before.sessions[id := start.saved.value])
                     else before)
              else if start.pc.AtHoldLock? then
                && sessions.Free(id) && (!contendedAgain ==> second == middle)
                && BothRun(first, id, start.pc.lines, start.pc.customer, key, now, trace, n, middle, second, Value(),
                     outcome)
              else
                && start.pc.AtConfirmLock? && sessions.Free(id)
                && (old(sessions.Free(id)) && !contendedAgain ==> second == before)
                && SectionRuns(second, id, start.pc, now, trace, Value(), outcome)
      ensures old(sessions.Free(id)) && !contended ==> first == old(Value())
    {
      hide Exec, Resume, FirstThread, After, CartLines, EnterConfirm, SectionRuns, BothRun;
      n, first, middle, second := 0, Value(), Value(), Value();
      ghost var mark := |gateway.log|;
      assert gateway.log[mark..] == [];
      var cached := idempotency.Get(id, key);
      var found := sessions.Get(id);
      if found.None? {
        return Raised(SessionNotFound), n, first, middle, second;
      }
      var session := found.value;
      if cached.Some? {
        var repaired := Repaired(session, cached.value, {Created, Held, FulfillPending});
        if repaired.Some? {
          session := sessions.Save(repaired.value);
        }
        return Returned(session, true), n, first, middle, second;
      }
      if session.IsTerminal() {
        return Raised(InvalidTransition), n, first, middle, second;
      }
      var name := if customer != "" then customer
                  else if session.customer.Some? && session.customer.value != "" then session.customer.value
                  else "Guest";
      outcome, n, first, middle, second := HoldThenConfirm(id, session, items, name, key, catalog, now, contended,
        contendedAgain);
    }

    /** place_order, from the point where the session is found open and the key new. */
    method HoldThenConfirm(id: Sid, session: Session, items: seq<Item>, name: string, key: Key, catalog: Catalog,
                           now: int,
                           contended: bool, contendedAgain: bool)
      returns (outcome: Outcome, ghost n: nat, ghost first: Local, ghost middle: Local, ghost second: Local)
      requires Keyed()
      requires Find(sessions.inner.sessions, id) == Some(session) && !session.IsTerminal()
      modifies sessions`locks, sessions.inner, idempotency, metrics, gateway
      ensures old(gateway.log) <= gateway.log && Keyed()
      ensures var before, trace := old(Value()), gateway.log[|old(gateway.log)|..];
              if session.state != Created then
                && sessions.Free(id) && (old(sessions.Free(id)) && !contendedAgain ==> second == before)
                && SectionRuns(second, id, AtConfirmLock(Some(name), key), now, trace, Value(), outcome)
              else
                var start := StartHold(catalog, items, name, Some(session), ThenConfirm(name, key));
                if start.pc.Done? then
                  && outcome == start.pc.outcome && trace == [] && Value() == before && start.saved.None?
                  && sessions.locks == old(sessions.locks)
                else
                  && start.pc.AtHoldLock? && sessions.Free(id) && (!contendedAgain ==> second == middle)
                  && BothRun(first, id, start.pc.lines, name, key, now, trace, n, middle, second, Value(), outcome)
      ensures old(sessions.Free(id)) && !contended ==> first == old(Value())
    {
      hide Exec, Resume, FirstThread, After, CartLines, EnterConfirm, StartHold, SectionRuns;
      n, first, middle, second := 0, Value(), Value(), Value();
      ghost var mark := |gateway.log|;
      assert gateway.log[mark..] == [];
      if session.state == Created {
        StartHoldNext(catalog, items, name, Some(session), ThenConfirm(name, key));
        var held;
        held, first := PlaceHold(id, items, name, catalog, contended);
        n, middle, second := |gateway.log| - mark, Value(), Value();
        assert gateway.log[mark..][..n] == gateway.log[mark..];
        ghost var start := StartHold(catalog, items, name, Some(session), Return).pc;
        assert start.AtHoldLock? ==>
            SectionRuns(first, id, AtHoldLock(start.lines, name, Return), 0, gateway.log[mark..][..n], middle, held);
        if held.Raised? {
          outcome := held;
          return;
        }
      }
      var found := sessions.Get(id);
      if found.None? {
        return Raised(SessionNotFound), n, first, middle, second;
      }
      if found.value.state != FulfillPending && found.value.state != Held {
        return Raised(InvalidTransition), n, first, middle, second;
      }
      ghost var hold := gateway.log[mark..];
      ghost var all := |gateway.log|;
      outcome, second := Confirm(id, Some(name), key, now, contendedAgain);
      assert gateway.log[mark..] == hold + gateway.log[all..];
      assert gateway.log[mark..][..|hold|] == hold && gateway.log[mark..][|hold|..] == gateway.log[all..];
    }
  }
}
