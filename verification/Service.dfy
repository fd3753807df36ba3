/** The checkout service in front of the coordinator (src/checkout/service.py): creating sessions, and
the check of the hold before a confirm, made without the session lock. */
module Service {
  import opened Models
  import opened Gateways
  import opened Retries
  import opened Stores
  import opened Program
  import opened Sections
  import opened Coordinator

  /** A whole confirm of the service, from `before` to `after` over `trace`; `granted` is the state in which
      it got its lock, after whatever others did while it looked at the hold and waited. */
  ghost predicate GatedRuns(before: Local, granted: Local, id: Sid, customer: Option<string>, key: Key, now: int,
                            trace: seq<Exchange>,
                            after: Local, outcome: Outcome)
  {
    var start := Start(GatedConfirm(customer, key), map[], Find(before.sessions, id), None).pc;
    if start.AtGate? then
      && trace != [] && trace[0].call == GetHold(start.hold)
      && (if trace[0].reply.Failed? then
            && |trace| == 1 && after == before
            && outcome == Raised(if Settled(trace[0].reply) then HoldExpired else Error.Gateway(trace[0].reply.why))
          else SectionRuns(granted, id, AtConfirmLock(customer, key), now, trace[1..], after, outcome))
    else
      start == AtConfirmLock(customer, key) && SectionRuns(granted, id, AtConfirmLock(customer, key), now, trace,
        after, outcome)
  }

  class CheckoutService {
    const saga: SagaCoordinator

    constructor (saga: SagaCoordinator)
      ensures this.saga == saga
    {
      this.saga := saga;
    }

    method CreateSession(newId: Sid, ref: Ref) returns (session: Session)
      requires saga.Keyed()
      modifies saga.sessions.inner
      ensures session.id == newId && session.ref == ref && session.state == Created && session.lines == []
      ensures session.hold == None && session.order == None && session.key == None
      ensures session.customer == None && session.expires == None
      ensures saga.sessions.inner.sessions == old(saga.sessions.inner.sessions)[newId := session]
      ensures saga.Keyed()
    {
      session := saga.sessions.Save(FreshSession(newId, ref));
    }

    /** The coordinator's validate_hold_active: an error when the hold is gone or cannot be read. */
    method ValidateHoldActive(session: Session) returns (error: Option<Error>)
      modifies saga.gateway`log
      ensures session.hold.None? ==> error == None && saga.gateway.log == old(saga.gateway.log)
      ensures session.hold.Some? ==>
                && |saga.gateway.log| == |old(saga.gateway.log)| + 1 && old(saga.gateway.log) <= saga.gateway.log
                && var x := saga.gateway.log[|old(saga.gateway.log)|];
                   && x.call == GetHold(session.hold.value) && Answers(x.call, x.reply)
                   && error == match x.reply
                               case Failed(Upstream(status)) =>
                                 Some(if status in {404, 409} then HoldExpired else Error.Gateway(Upstream(status)))
                               case Failed(f) => Some(Error.Gateway(f))
                               case _ => None
    {
      if session.hold.None? {
        return None;
      }
      var reply := saga.gateway.Await(GetHold(session.hold.value));
      match reply {
        case Failed(Upstream(status)) =>
          error := Some(if status == 404 || status == 409 then HoldExpired else Error.Gateway(Upstream(status)));
        case Failed(f) =>
          error := Some(Error.Gateway(f));
        case _ =>
          error := None;
      }
    }

    /** A confirm of a held or pending session with no key pinned first asks whether its hold is still
        there; any other confirm goes straight to the coordinator. */
    method Confirm(id: Sid, customer: Option<string>, key: Key, now: int, contended: bool)
      returns (outcome: Outcome, ghost granted: Local)
      requires saga.Keyed()
      modifies saga.sessions`locks, saga.sessions.inner, saga.idempotency, saga.metrics, saga.gateway
      ensures old(saga.gateway.log) <= saga.gateway.log && saga.Keyed()
      ensures GatedRuns(old(saga.Value()), granted, id, customer, key, now, saga.gateway.log[|old(saga.gateway.log)|..],
                        saga.Value(), outcome)
      ensures old(saga.sessions.Free(id)) && !contended ==> granted == old(saga.Value())
    {
      hide Exec, Resume, FirstThread, After, SectionRuns, EnterConfirm;
      granted := saga.Value();
      ghost var mark := |saga.gateway.log|;
      var found := saga.sessions.Get(id);
      if found.Some? && found.value.state in {Held, FulfillPending} && found.value.key.None? {
        var error := ValidateHoldActive(found.value);
        if error.Some? {
          return Raised(error.value), granted;
        }
      }
      ghost var first := saga.gateway.log[mark..];
      ghost var all := |saga.gateway.log|;
      outcome, granted := saga.Confirm(id, customer, key, now, contended);
      assert saga.gateway.log[mark..] == first + saga.gateway.log[all..];
    }
  }
}
