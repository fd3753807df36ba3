/** What every locked section does over literal scripts of replies: which call comes next, what is saved,
cached, counted and answered, and after how many attempts.  The statements speak of calls, replies and
session fields only, never of the program's own steps.
*/
module Scripts {
  import opened Models
  import opened Gateways
  import opened Retries
  import opened Cart
  import opened Metrics
  import opened Program
  import opened Sections

  // ----- Vocabulary ------------------------------------------------------------------------------

  /** The section that began as `first` has made these exchanges, written nothing, and awaits this call. */
  ghost predicate Awaits(first: Thread, trace: seq<Exchange>, s: Session, call: Call) {
    match Exec(first, trace)
    case Some(u) =>
      && u.session == s && u.put == None && u.events == []
      && AwaitsCall(u.pc) && (u.pc.AtFulfill? || u.pc.AtRelease? ==> s.hold.Some?) && CallOf(u.pc, s) == call
    case None => false
  }

  /** The section is over: it left the session as `y`, cached `put`, counted `events` and gave this answer. */
  ghost predicate Ends(first: Thread, trace: seq<Exchange>, y: Session, put: Option<(Key, Record)>, events: seq<Event>,
                       outcome: Outcome)
  {
    Exec(first, trace) == Some(Thread(Done(outcome), y, put, events))
  }

  function Timeouts(call: Call, n: nat): seq<Exchange> {
    seq(n, i => Exchange(call, Failed(Timeout)))
  }

  function Lookups(ref: Ref, replies: seq<Reply>): seq<Exchange> {
    seq(|replies|, i requires 0 <= i < |replies| => Exchange(FindOrder(ref), replies[i]))
  }

  /** What a hold that is gone or done answers. */
  predicate Settles(reply: Reply) {
    reply in {Accepted, Failed(Upstream(404)), Failed(Upstream(409))}
  }

  predicate Breaks(f: Failure) {
    f !in {Timeout, Upstream(404), Upstream(409)}
  }

  /** At most two lookups so far, each empty or timed out. */
  predicate Missed(replies: seq<Reply>) {
    |replies| <= 2 && forall r :: r in replies ==> r == Found(None) || r == Failed(Timeout)
  }

  /** What confirm reports once it has compensated: a timeout as an incomplete compensation, else the cause. */
  function Reported(cause: Failure): Error {
    match cause
    case Timeout => CompensationIncomplete
    case _ => Error.Gateway(cause)
  }

  /** The section has so far written nothing, and now compensates for `cause`: up to two timed-out releases
      and then a settled one compensate the session; a third timeout, or any other error, leaves it. */
  ghost predicate Compensates(first: Thread, prefix: seq<Exchange>, s: Session, cause: Failure) {
    if s.hold.None? then Ends(first, prefix, s, None, [], Raised(Reported(cause))) else
      var call := ReleaseHold(s.hold.value);
      && (forall n: nat :: n <= 2 ==> Awaits(first, prefix + Timeouts(call, n), s, call))
      && (forall n: nat, r :: n <= 2 && Settles(r) ==>
            Ends(first, prefix + Timeouts(call, n) + [Exchange(call, r)], s.(state := Compensated, key := None),
                 None, [CompensationDone], Raised(Reported(cause))))
      && Ends(first, prefix + Timeouts(call, 3), s, None, [], Raised(CompensationIncomplete))
      && (forall n: nat, f :: n <= 2 && Breaks(f) ==>
            Ends(first, prefix + Timeouts(call, n) + [Exchange(call, Failed(f))],
                 s, None, [], Raised(Error.Gateway(f))))
  }

  /** The record cached for a session in this state with this order. */
  function CachedAs(s: Session, state: SessionState, order: OrderId): Record {
    Record(200, Body(s.id, s.ref, state, s.hold, Some(order), s.expires), Some(order))
  }

  /** The section is over with the session in this state, with this order and key, cached and counted so. */
  ghost predicate Records(first: Thread, trace: seq<Exchange>, s: Session, state: SessionState, order: OrderId,
                          key: Key, events: seq<Event>, fromCache: bool)
  {
    var y := s.(state := state, order := Some(order), key := Some(key));
    Ends(first, trace, y, Some((key, CachedAs(s, state, order))), events, Returned(y, fromCache))
  }

  /** The section has so far written nothing, and now completes `order`: up to two timed-out fulfils and then
      a settled one finish the session; a third timeout, or any other error, leaves it pending. */
  ghost predicate Completes(first: Thread, prefix: seq<Exchange>, s: Session, order: OrderId, key: Key,
                            reconciled: bool)
  {
    var final, counted := if reconciled then Reconciled else Confirmed, [ConfirmSucceeded(reconciled)];
    if s.hold.None? then Records(first, prefix, s, final, order, key, counted, false) else
      var call := FulfillHold(s.hold.value);
      && (forall n: nat :: n <= 2 ==> Awaits(first, prefix + Timeouts(call, n), s, call))
      && (forall n: nat, r :: n <= 2 && Settles(r) ==>
            Records(first, prefix + Timeouts(call, n) + [Exchange(call, r)], s, final, order, key, counted, false))
      && Records(first, prefix + Timeouts(call, 3), s, FulfillPending, order, key, [], false)
      && (forall n: nat, f :: n <= 2 && Breaks(f) ==>
            Records(first, prefix + Timeouts(call, n) + [Exchange(call, Failed(f))],
                    s, FulfillPending, order, key, [], false))
  }

  /** The same for a session that is pending: it is confirmed, or stays as it is. */
  ghost predicate Confirms(first: Thread, s: Session, key: Key, fromCache: bool)
  {
    && s.hold.Some? && s.order.Some?
    && var call := FulfillHold(s.hold.value);
       && (forall n: nat :: n <= 2 ==> Awaits(first, Timeouts(call, n), s, call))
       && (forall n: nat, r :: n <= 2 && Settles(r) ==>
             Records(first, Timeouts(call, n) + [Exchange(call, r)], s, Confirmed, s.order.value, key,
                     [ConfirmSucceeded(false)], fromCache))
       && Ends(first, Timeouts(call, 3), s, None, [], Returned(s, fromCache))
       && (forall n: nat, f :: n <= 2 && Breaks(f) ==>
             Ends(first, Timeouts(call, n) + [Exchange(call, Failed(f))], s, None, [], Returned(s, fromCache)))
  }

  // ----- One loop of releases or fulfils -------------------------------------------------------------

  lemma TimeoutsMore(call: Call, n: nat)
    ensures Timeouts(call, n + 1) == Timeouts(call, n) + [Exchange(call, Failed(Timeout))]
  {
  }

  lemma ReleaseScript(first: Thread, prefix: seq<Exchange>, s: Session, h: HoldId, why: ReleaseReason, n: nat,
                      last: Reply)
    requires Exec(first, prefix) == Some(Thread(AtRelease(why, 0), s, None, [])) && s.hold == Some(h)
    requires n <= 2 && (last.Failed? || last.Accepted?) && (last == Failed(Timeout) ==> n == 2)
    ensures var call := ReleaseHold(h);
            var result: Release := if Settles(last) then Ok(true) else if last == Failed(Timeout) then Ok(false)
              else Err(last.why);
            Exec(first, prefix + Timeouts(call, n) + [Exchange(call, last)])
              == Some(Absorb(Thread(AtRelease(why, 0), s, None, []), AfterRelease(why, s, result)))
  {
    hide Exec, AfterRelease, Absorb;
    var call := ReleaseHold(h);
    var result: Release := if Settles(last) then Ok(true) else if last == Failed(Timeout) then Ok(false)
      else Err(last.why);
    var trace := Timeouts(call, n) + [Exchange(call, last)];
    assert prefix + Timeouts(call, n) + [Exchange(call, last)] == prefix + trace;
    ReleaseEnded(first, prefix, Thread(AtRelease(why, 0), s, None, []), trace, why, result);
  }

  lemma ReleaseWaits(first: Thread, prefix: seq<Exchange>, s: Session, h: HoldId, why: ReleaseReason, n: nat)
    requires Exec(first, prefix) == Some(Thread(AtRelease(why, 0), s, None, [])) && s.hold == Some(h) && n <= 2
    ensures Awaits(first, prefix + Timeouts(ReleaseHold(h), n), s, ReleaseHold(h))
  {
    hide Exec;
    ReleaseTrying(first, prefix, Thread(AtRelease(why, 0), s, None, []), Timeouts(ReleaseHold(h), n), why);
  }

  lemma FulfillScript(first: Thread, prefix: seq<Exchange>, s: Session, h: HoldId, why: FulfillReason, n: nat,
                      last: Reply)
    requires Exec(first, prefix) == Some(Thread(AtFulfill(why, 0), s, None, [])) && s.hold == Some(h)
    requires n <= 2 && (last.Failed? || last.Accepted?) && (last == Failed(Timeout) ==> n == 2)
    ensures var call := FulfillHold(h);
            Exec(first, prefix + Timeouts(call, n) + [Exchange(call, last)])
              == Some(Absorb(Thread(AtFulfill(why, 0), s, None, []), AfterFulfill(why, s, Settles(last))))
  {
    hide Exec, AfterFulfill, Absorb;
    var call := FulfillHold(h);
    var trace := Timeouts(call, n) + [Exchange(call, last)];
    assert prefix + Timeouts(call, n) + [Exchange(call, last)] == prefix + trace;
    FulfillEnded(first, prefix, Thread(AtFulfill(why, 0), s, None, []), trace, why, Settles(last));
  }

  lemma FulfillWaits(first: Thread, prefix: seq<Exchange>, s: Session, h: HoldId, why: FulfillReason, n: nat)
    requires Exec(first, prefix) == Some(Thread(AtFulfill(why, 0), s, None, [])) && s.hold == Some(h) && n <= 2
    ensures Awaits(first, prefix + Timeouts(FulfillHold(h), n), s, FulfillHold(h))
  {
    hide Exec;
    FulfillTrying(first, prefix, Thread(AtFulfill(why, 0), s, None, []), Timeouts(FulfillHold(h), n), why);
  }

  lemma Counted(event: Event)
    ensures [] + [event] == [event]
  {
  }

  lemma CompensatesFrom(first: Thread, prefix: seq<Exchange>, s: Session, cause: Failure)
    requires s.state == Held
    requires Exec(first, prefix) == Some(Absorb(Thread(first.pc, s, None, []), Compensate(s, cause)))
    ensures Compensates(first, prefix, s, cause)
  {
    hide Exec, Awaits, Timeouts;
    if s.hold.Some? {
      var h := s.hold.value;
      var call, why := ReleaseHold(h), Compensating(cause);
      Counted(CompensationDone);
      forall n: nat | n <= 2 ensures Awaits(first, prefix + Timeouts(call, n), s, call) {
        ReleaseWaits(first, prefix, s, h, why, n);
      }
      forall n: nat, r | n <= 2 && Settles(r)
        ensures Ends(first, prefix + Timeouts(call, n) + [Exchange(call, r)], s.(state := Compensated, key := None),
                     None, [CompensationDone], Raised(Reported(cause)))
      {
        ReleaseScript(first, prefix, s, h, why, n, r);
      }
      TimeoutsMore(call, 2);
      assert prefix + Timeouts(call, 3) == prefix + Timeouts(call, 2) + [Exchange(call, Failed(Timeout))];
      ReleaseScript(first, prefix, s, h, why, 2, Failed(Timeout));
      forall n: nat, f | n <= 2 && Breaks(f)
        ensures Ends(first, prefix + Timeouts(call, n) + [Exchange(call, Failed(f))], s, None, [],
                     Raised(Error.Gateway(f)))
      {
        ReleaseScript(first, prefix, s, h, why, n, Failed(f));
      }
    }
  }

  lemma CompletesFrom(first: Thread, prefix: seq<Exchange>, s: Session, order: Order, key: Key, reconciled: bool)
    requires s.state == Held
    requires Exec(first, prefix) == Some(Absorb(Thread(first.pc, s, None, []),
               StartFulfill(NewOrder(order, key, reconciled), s)))
    ensures Completes(first, prefix, s, order.id, key, reconciled)
  {
    hide Exec, Awaits, Timeouts;
    var final, counted := if reconciled then Reconciled else Confirmed, [ConfirmSucceeded(reconciled)];
    Counted(ConfirmSucceeded(reconciled));
    if s.hold.Some? {
      var h := s.hold.value;
      var call, why := FulfillHold(h), NewOrder(order, key, reconciled);
      forall n: nat | n <= 2 ensures Awaits(first, prefix + Timeouts(call, n), s, call) {
        FulfillWaits(first, prefix, s, h, why, n);
      }
      forall n: nat, r | n <= 2 && Settles(r)
        ensures Records(first, prefix + Timeouts(call, n) + [Exchange(call, r)],
                        s, final, order.id, key, counted, false)
      {
        FulfillScript(first, prefix, s, h, why, n, r);
      }
      TimeoutsMore(call, 2);
      assert prefix + Timeouts(call, 3) == prefix + Timeouts(call, 2) + [Exchange(call, Failed(Timeout))];
      FulfillScript(first, prefix, s, h, why, 2, Failed(Timeout));
      forall n: nat, f | n <= 2 && Breaks(f)
        ensures Records(first, prefix + Timeouts(call, n) + [Exchange(call, Failed(f))],
                        s, FulfillPending, order.id, key, [], false)
      {
        FulfillScript(first, prefix, s, h, why, n, Failed(f));
      }
    }
  }

  lemma ConfirmsFrom(first: Thread, s: Session, key: Key, fromCache: bool)
    requires s.state == FulfillPending && s.hold.Some? && s.order.Some?
    requires first == Thread(AtFulfill(Pending(key, fromCache), 0), s, None, [])
    ensures Confirms(first, s, key, fromCache)
  {
    hide Awaits, Timeouts;
    assert Exec(first, []) == Some(first);
    hide Exec;
    var h := s.hold.value;
    var call, why := FulfillHold(h), Pending(key, fromCache);
    Counted(ConfirmSucceeded(false));
    forall n: nat | n <= 2 ensures Awaits(first, Timeouts(call, n), s, call) {
      FulfillWaits(first, [], s, h, why, n);
      assert [] + Timeouts(call, n) == Timeouts(call, n);
    }
    forall n: nat, r | n <= 2 && Settles(r)
      ensures Records(first, Timeouts(call, n) + [Exchange(call, r)], s, Confirmed, s.order.value, key,
                      [ConfirmSucceeded(false)], fromCache)
    {
      FulfillScript(first, [], s, h, why, n, r);
      assert [] + Timeouts(call, n) == Timeouts(call, n);
    }
    TimeoutsMore(call, 2);
    assert [] + Timeouts(call, 2) == Timeouts(call, 2);
    FulfillScript(first, [], s, h, why, 2, Failed(Timeout));
    forall n: nat, f | n <= 2 && Breaks(f)
      ensures Ends(first, Timeouts(call, n) + [Exchange(call, Failed(f))], s, None, [], Returned(s, fromCache))
    {
      FulfillScript(first, [], s, h, why, n, Failed(f));
      assert [] + Timeouts(call, n) == Timeouts(call, n);
    }
  }

  // ----- One loop of lookups -------------------------------------------------------------------------

  lemma LookupWaits(first: Thread, prefix: seq<Exchange>, s: Session, why: LookupReason, misses: seq<Reply>)
    requires Exec(first, prefix) == Some(Thread(AtLookup(why, 0, MAX_RETRIES), s, None, [])) && Missed(misses)
    ensures Awaits(first, prefix + Lookups(s.ref, misses), s, FindOrder(s.ref))
  {
    hide Exec;
    forall i | 0 <= i < |misses| ensures Inconclusive(Lookups(s.ref, misses)[i].reply) {
      assert misses[i] in misses;
    }
    LookupTrying(first, prefix, Thread(AtLookup(why, 0, MAX_RETRIES), s, None, []), Lookups(s.ref, misses), why,
      MAX_RETRIES);
  }

  lemma LookupScript(first: Thread, prefix: seq<Exchange>, s: Session, why: LookupReason, misses: seq<Reply>,
                     last: Reply)
    requires Exec(first, prefix) == Some(Thread(AtLookup(why, 0, MAX_RETRIES), s, None, [])) && Missed(misses)
    requires last.Found? || last.Failed?
    requires last == Found(None) || last == Failed(Timeout) ==> |misses| == 2
    ensures var result: Lookup := if last.Found? then Ok(last.order) else Err(last.why);
            Exec(first, prefix + Lookups(s.ref, misses) + [Exchange(FindOrder(s.ref), last)])
              == Some(Absorb(Thread(AtLookup(why, 0, MAX_RETRIES), s, None, []), AfterLookup(why, s, result)))
  {
    hide Exec, AfterLookup, Absorb;
    var result: Lookup := if last.Found? then Ok(last.order) else Err(last.why);
    var trace := Lookups(s.ref, misses) + [Exchange(FindOrder(s.ref), last)];
    assert prefix + Lookups(s.ref, misses) + [Exchange(FindOrder(s.ref), last)] == prefix + trace;
    forall i | 0 <= i < |trace|
      ensures trace[i].call == FindOrder(s.ref) && Answers(trace[i].call, trace[i].reply)
      ensures i < |trace| - 1 ==> Inconclusive(Replies(trace)[i])
    {
      if i < |misses| {
        assert misses[i] in misses;
      }
    }
    LookupEnded(first, prefix, Thread(AtLookup(why, 0, MAX_RETRIES), s, None, []), trace, why, MAX_RETRIES, result);
  }

  // ----- A confirm under the lock ----------------------------------------------------------------------

  /** A confirm goes under this name: the one it was given, or else the one the session was held under. */
  predicate Under(customer: Option<string>, s: Session, name: string) {
    name != "" && if customer.Some? && customer.value != "" then name == customer.value else s.customer == Some(name)
  }

  /** HELD with lines, no key pinned, and not expired. */
  predicate Open(s: Session, now: int) {
    && s.state == Held && s.key == None && s.lines != []
    && (s.expires == None || s.expires.value > now)
  }

  /** The body of the POST: this name, the session's reference, and its frozen lines one by one. */
  predicate BodyOf(body: OrderBody, s: Session, name: string) {
    && body.customer == name && body.ref == s.ref && |body.items| == |s.lines|
    && forall i :: 0 <= i < |s.lines| ==>
         && body.items[i].code == s.lines[i].code
         && body.items[i].quantity == s.lines[i].quantity
         && body.items[i].price == s.lines[i].price
  }

  /** The empty lookup before the POST, then the POST and its reply. */
  function Posted(s: Session, body: OrderBody, key: Key, reply: Reply): seq<Exchange> {
    [Exchange(FindOrder(s.ref), Found(None)), Exchange(PostOrder(body, key), reply)]
  }

  /** After this prefix, lookups with these misses and then one more with this reply. */
  function Missing(prefix: seq<Exchange>, s: Session, misses: seq<Reply>, last: Reply): seq<Exchange> {
    prefix + Lookups(s.ref, misses) + [Exchange(FindOrder(s.ref), last)]
  }

  lemma BodyIs(body: OrderBody, s: Session, name: string)
    requires BodyOf(body, s, name)
    ensures body == OrderPayload(s, name)
  {
    assert body.items == OrderItems(s.lines);
  }

  lemma OneExchange(first: Thread, x: Exchange)
    requires Fits(first, x)
    ensures Exec(first, [x]) == Some(Absorb(first, Resume(first.pc, first.session, x.reply)))
  {
    ExecAppend(first, [], x);
    assert [] + [x] == [x];
  }

  lemma Opens(customer: Option<string>, key: Key, s: Session, now: int, name: string)
    requires Open(s, now) && Under(customer, s, name)
    ensures Granted(AtConfirmLock(customer, key), s, None, now)
              == Thread(AtLookup(BeforePost(name, key), 0, 0), s, None, [])
  {
  }

  /** An open confirm looks its order up once.  A lookup that fails in any way is compensated for, and an order
      that is found is completed. */
  lemma ConfirmLooks(customer: Option<string>, key: Key, s: Session, now: int, name: string)
    requires Open(s, now) && Under(customer, s, name)
    ensures var first := Granted(AtConfirmLock(customer, key), s, None, now);
            && Awaits(first, [], s, FindOrder(s.ref))
            && (forall f :: Compensates(first, [Exchange(FindOrder(s.ref), Failed(f))], s, f))
            && (forall o: Order :: Completes(first, [Exchange(FindOrder(s.ref), Found(Some(o)))], s, o.id, key, true))
  {
    hide Compensates, Completes, Enter, Granted, Compensate, StartFulfill;
    var first := Granted(AtConfirmLock(customer, key), s, None, now);
    Opens(customer, key, s, now, name);
    forall f ensures Compensates(first, [Exchange(FindOrder(s.ref), Failed(f))], s, f) {
      OneExchange(first, Exchange(FindOrder(s.ref), Failed(f)));
      CompensatesFrom(first, [Exchange(FindOrder(s.ref), Failed(f))], s, f);
    }
    forall o: Order ensures Completes(first, [Exchange(FindOrder(s.ref), Found(Some(o)))], s, o.id, key, true) {
      OneExchange(first, Exchange(FindOrder(s.ref), Found(Some(o))));
      CompletesFrom(first, [Exchange(FindOrder(s.ref), Found(Some(o)))], s, o, key, true);
    }
  }

  lemma AfterEmpty(customer: Option<string>, key: Key, s: Session, now: int, name: string)
    requires Open(s, now) && Under(customer, s, name)
    ensures Exec(Granted(AtConfirmLock(customer, key), s, None, now), [Exchange(FindOrder(s.ref), Found(None))])
              == Some(Thread(AtPost(name, key), s, None, []))
  {
    hide Enter, Granted;
    Opens(customer, key, s, now, name);
    OneExchange(Granted(AtConfirmLock(customer, key), s, None, now), Exchange(FindOrder(s.ref), Found(None)));
  }

  lemma AfterReply(customer: Option<string>, key: Key, s: Session, now: int, name: string, body: OrderBody,
                   reply: Reply)
    requires Open(s, now) && Under(customer, s, name) && BodyOf(body, s, name) && (reply.Failed? || reply.Placed?)
    ensures Exec(Granted(AtConfirmLock(customer, key), s, None, now), Posted(s, body, key, reply))
              == Some(Absorb(Thread(AtPost(name, key), s, None, []), AfterPost(s, key, reply)))
  {
    hide Enter, Granted, Exec;
    AfterEmpty(customer, key, s, now, name);
    BodyIs(body, s, name);
    PostEnded(Granted(AtConfirmLock(customer, key), s, None, now), [Exchange(FindOrder(s.ref), Found(None))],
              Thread(AtPost(name, key), s, None, []), name, key, reply);
    assert [Exchange(FindOrder(s.ref), Found(None))] + [Exchange(PostOrder(body, key), reply)]
        == Posted(s, body, key, reply);
  }

  /** After the empty lookup the order is posted.  A stored order is completed, and a POST that is dropped or
      refused with any status but 409 is compensated for. */
  lemma ConfirmPosts(customer: Option<string>, key: Key, s: Session, now: int, name: string, body: OrderBody)
    requires Open(s, now) && Under(customer, s, name) && BodyOf(body, s, name)
    ensures var first := Granted(AtConfirmLock(customer, key), s, None, now);
            && Awaits(first, [Exchange(FindOrder(s.ref), Found(None))], s, PostOrder(body, key))
            && (forall o: Order :: Completes(first, Posted(s, body, key, Placed(o)), s, o.id, key, false))
            && (forall f :: f != Timeout && f != Upstream(409) ==>
                  Compensates(first, Posted(s, body, key, Failed(f)), s, f))
  {
    hide Compensates, Completes, Enter, Granted, Compensate, StartFulfill, Exec;
    var first := Granted(AtConfirmLock(customer, key), s, None, now);
    AfterEmpty(customer, key, s, now, name);
    BodyIs(body, s, name);
    forall o: Order ensures Completes(first, Posted(s, body, key, Placed(o)), s, o.id, key, false) {
      AfterReply(customer, key, s, now, name, body, Placed(o));
      CompletesFrom(first, Posted(s, body, key, Placed(o)), s, o, key, false);
    }
    forall f | f != Timeout && f != Upstream(409) ensures Compensates(first, Posted(s, body, key, Failed(f)), s, f) {
      AfterReply(customer, key, s, now, name, body, Failed(f));
      CompensatesFrom(first, Posted(s, body, key, Failed(f)), s, f);
    }
  }

  /** After a 409 the order is looked up, at most three times as long as nothing is found.  An order that is found
      is completed; three times nothing, a third timeout, or any other error is compensated for. */
  lemma ConfirmAfterConflict(customer: Option<string>, key: Key, s: Session, now: int, name: string, body: OrderBody,
                             misses: seq<Reply>)
    requires Open(s, now) && Under(customer, s, name) && BodyOf(body, s, name) && Missed(misses)
    ensures var first := Granted(AtConfirmLock(customer, key), s, None, now);
            var posted := Posted(s, body, key, Failed(Upstream(409)));
            && Awaits(first, posted + Lookups(s.ref, misses), s, FindOrder(s.ref))
            && (forall o: Order :: Completes(first, Missing(posted, s, misses, Found(Some(o))), s, o.id, key, true))
            && (forall f :: f != Timeout || |misses| == 2 ==>
                  Compensates(first, Missing(posted, s, misses, Failed(f)), s, f))
            && (|misses| == 2 ==> Compensates(first, Missing(posted, s, misses, Found(None)), s, Upstream(409)))
  {
    hide Compensates, Completes, Enter, Granted, Compensate, StartFulfill, Exec, Awaits, Lookups, Posted, Missed;
    var first := Granted(AtConfirmLock(customer, key), s, None, now);
    var posted, why := Posted(s, body, key, Failed(Upstream(409))), AfterConflict(key);
    AfterReply(customer, key, s, now, name, body, Failed(Upstream(409)));
    LookupWaits(first, posted, s, why, misses);
    forall o: Order ensures Completes(first, Missing(posted, s, misses, Found(Some(o))), s, o.id, key, true) {
      LookupScript(first, posted, s, why, misses, Found(Some(o)));
      CompletesFrom(first, Missing(posted, s, misses, Found(Some(o))), s, o, key, true);
    }
    forall f | f != Timeout || |misses| == 2 ensures Compensates(first, Missing(posted, s, misses, Failed(f)), s, f) {
      LookupScript(first, posted, s, why, misses, Failed(f));
      CompensatesFrom(first, Missing(posted, s, misses, Failed(f)), s, f);
    }
    if |misses| == 2 {
      LookupScript(first, posted, s, why, misses, Found(None));
      CompensatesFrom(first, Missing(posted, s, misses, Found(None)), s, Upstream(409));
    }
  }

  /** After a POST that timed out the order is looked up in the same way.  An order that is found is completed, and
      three times nothing is compensated for; but a third timeout or any other error pins the key and keeps the
      hold. */
  lemma ConfirmAfterTimeout(customer: Option<string>, key: Key, s: Session, now: int, name: string, body: OrderBody,
                            misses: seq<Reply>)
    requires Open(s, now) && Under(customer, s, name) && BodyOf(body, s, name) && Missed(misses)
    ensures var first := Granted(AtConfirmLock(customer, key), s, None, now);
            var posted := Posted(s, body, key, Failed(Timeout));
            && Awaits(first, posted + Lookups(s.ref, misses), s, FindOrder(s.ref))
            && (forall o: Order :: Completes(first, Missing(posted, s, misses, Found(Some(o))), s, o.id, key, true))
            && (forall f :: f != Timeout || |misses| == 2 ==>
                  Ends(first, Missing(posted, s, misses, Failed(f)), s.(key := Some(key)), None, [StatusUnknown],
                       Raised(OrderStatusUnknown)))
            && (|misses| == 2 ==> Compensates(first, Missing(posted, s, misses, Found(None)), s, Timeout))
  {
    hide Compensates, Completes, Enter, Granted, Compensate, StartFulfill, Exec, Awaits, Lookups, Posted, Missed;
    var first := Granted(AtConfirmLock(customer, key), s, None, now);
    var posted, why := Posted(s, body, key, Failed(Timeout)), AfterTimeout(key);
    AfterReply(customer, key, s, now, name, body, Failed(Timeout));
    LookupWaits(first, posted, s, why, misses);
    forall o: Order ensures Completes(first, Missing(posted, s, misses, Found(Some(o))), s, o.id, key, true) {
      LookupScript(first, posted, s, why, misses, Found(Some(o)));
      CompletesFrom(first, Missing(posted, s, misses, Found(Some(o))), s, o, key, true);
    }
    Counted(StatusUnknown);
    forall f | f != Timeout || |misses| == 2
      ensures Ends(first, Missing(posted, s, misses, Failed(f)), s.(key := Some(key)), None, [StatusUnknown],
                   Raised(OrderStatusUnknown))
    {
      LookupScript(first, posted, s, why, misses, Failed(f));
    }
    if |misses| == 2 {
      LookupScript(first, posted, s, why, misses, Found(None));
      CompensatesFrom(first, Missing(posted, s, misses, Found(None)), s, Timeout);
    }
  }

  /** A confirm of a HELD session with its own key pinned posts nothing and never releases: it looks the order up,
      completes it if it is found, and otherwise leaves the session as it is and the status unknown. */
  lemma ConfirmPinned(customer: Option<string>, key: Key, s: Session, now: int, misses: seq<Reply>)
    requires s.state == Held && s.key == Some(key) && Missed(misses)
    ensures var first := Granted(AtConfirmLock(customer, key), s, None, now);
            && Awaits(first, Lookups(s.ref, misses), s, FindOrder(s.ref))
            && (forall o: Order :: Completes(first, Missing([], s, misses, Found(Some(o))), s, o.id, key, true))
            && (forall f :: f != Timeout || |misses| == 2 ==>
                  Ends(first, Missing([], s, misses, Failed(f)), s, None, [], Raised(OrderStatusUnknown)))
            && (|misses| == 2 ==>
                  Ends(first, Missing([], s, misses, Found(None)), s, None, [], Raised(OrderStatusUnknown)))
  {
    hide Completes, StartFulfill, Awaits, Lookups, Missed;
    var first := Granted(AtConfirmLock(customer, key), s, None, now);
    var why := Unresolved(key);
    assert Exec(first, []) == Some(Thread(AtLookup(why, 0, MAX_RETRIES), s, None, []));
    hide Exec, Enter, Granted;
    LookupWaits(first, [], s, why, misses);
    assert [] + Lookups(s.ref, misses) == Lookups(s.ref, misses);
    forall o: Order ensures Completes(first, Missing([], s, misses, Found(Some(o))), s, o.id, key, true) {
      LookupScript(first, [], s, why, misses, Found(Some(o)));
      CompletesFrom(first, Missing([], s, misses, Found(Some(o))), s, o, key, true);
    }
    forall f | f != Timeout || |misses| == 2
      ensures Ends(first, Missing([], s, misses, Failed(f)), s, None, [], Raised(OrderStatusUnknown))
    {
      LookupScript(first, [], s, why, misses, Failed(f));
    }
    if |misses| == 2 {
      LookupScript(first, [], s, why, misses, Found(None));
    }
  }

  /** A confirm of a pending session with its key only fulfils. */
  lemma ConfirmPending(customer: Option<string>, key: Key, s: Session, now: int)
    requires s.state == FulfillPending && s.key == Some(key) && s.hold.Some? && s.order.Some?
    ensures Confirms(Granted(AtConfirmLock(customer, key), s, None, now), s, key, false)
  {
    hide Confirms;
    ConfirmsFrom(Granted(AtConfirmLock(customer, key), s, None, now), s, key, false);
  }

  /** Everything else is refused before any call: another state, another key, no lines, no hold or order to
      fulfil, an expired hold, no name - the expiry before the name. */
  lemma ConfirmRefused(customer: Option<string>, key: Key, s: Session, now: int)
    ensures var first := Granted(AtConfirmLock(customer, key), s, None, now);
            var refused := e => Ends(first, [], s, None, [], Raised(e));
            && (s.state !in {Held, FulfillPending} ==> refused(InvalidTransition))
            && (s.key.Some? && s.key != Some(key) ==> refused(InvalidTransition))
            && (s.state == FulfillPending && (s.key.None? || s.hold.None? || s.order.None?) ==>
                 refused(InvalidTransition))
            && (s.state == Held && s.key.None? && s.lines == [] ==> refused(InvalidTransition))
            && (s.state == Held && s.key.None? && s.lines != [] && !Open(s, now) ==> refused(HoldExpired))
            && (Open(s, now) && (forall name :: !Under(customer, s, name)) ==> refused(InvalidTransition))
  {
    if Open(s, now) && (forall name :: !Under(customer, s, name)) {
      var resolved := OrElse(customer, s.customer);
      if resolved.Some? {
        assert !Under(customer, s, resolved.value);
      }
    }
  }

  /** A cached confirm first makes the session what its record says - always its order, and its state while it
      is HELD or pending - and then only fulfils: to confirm a pending session, or, once it is over, to no effect
      whatever the answers.  Nothing is ever saved, cached or counted beyond that. */
  lemma ConfirmReplayed(customer: Option<string>, key: Key, s: Session, r: Record, now: int)
    ensures var first := Granted(AtConfirmLock(customer, key), s, Some(r), now);
            var y := s.(state := if s.state in {Held, FulfillPending} then r.body.state else s.state,
                        order := if r.order.Some? then r.order else s.order);
            var over := y.state in {Confirmed, Abandoned, Compensated, Reconciled};
            && (y.state == FulfillPending && (y.hold.None? || y.order.None?) ==>
                  Ends(first, [], y, None, [], Raised(InvalidTransition)))
            && (y.state == FulfillPending && y.hold.Some? && y.order.Some? ==> Confirms(first, y, key, true))
            && (over && y.hold.Some? ==>
                  var call := FulfillHold(y.hold.value);
                  && (forall n: nat :: n <= 2 ==> Awaits(first, Timeouts(call, n), y, call))
                  && Ends(first, Timeouts(call, 3), y, None, [], Returned(y, true))
                  && (forall n: nat, r :: n <= 2 && (r == Accepted || (r.Failed? && r.why != Timeout)) ==>
                        Ends(first, Timeouts(call, n) + [Exchange(call, r)], y, None, [], Returned(y, true))))
            && (y.state != FulfillPending && !(over && y.hold.Some?) ==>
                  Ends(first, [], y, None, [], Returned(y, true)))
  {
    var first := Granted(AtConfirmLock(customer, key), s, Some(r), now);
    var y := s.(state := if s.state in {Held, FulfillPending} then r.body.state else s.state,
                order := if r.order.Some? then r.order else s.order);
    assert first.session == y && first.put == None && first.events == [];
    if y.state == FulfillPending && y.hold.Some? && y.order.Some? {
      ConfirmsFrom(first, y, key, true);
    }
    if y.IsTerminal() && y.hold.Some? {
      assert first == Thread(AtFulfill(CachedReplay, 0), y, None, []);
      ReplayFrom(first, y);
    }
  }

  lemma ReplayFrom(first: Thread, s: Session)
    requires first == Thread(AtFulfill(CachedReplay, 0), s, None, []) && s.hold.Some?
    ensures var call := FulfillHold(s.hold.value);
            && (forall n: nat :: n <= 2 ==> Awaits(first, Timeouts(call, n), s, call))
            && Ends(first, Timeouts(call, 3), s, None, [], Returned(s, true))
            && (forall n: nat, r :: n <= 2 && (r == Accepted || (r.Failed? && r.why != Timeout)) ==>
                  Ends(first, Timeouts(call, n) + [Exchange(call, r)], s, None, [], Returned(s, true)))
  {
    hide Awaits, Timeouts;
    assert Exec(first, []) == Some(first);
    hide Exec;
    var h := s.hold.value;
    var call := FulfillHold(h);
    forall n: nat | n <= 2 ensures Awaits(first, Timeouts(call, n), s, call) {
      FulfillWaits(first, [], s, h, CachedReplay, n);
      assert [] + Timeouts(call, n) == Timeouts(call, n);
    }
    forall n: nat, r | n <= 2 && (r == Accepted || (r.Failed? && r.why != Timeout))
      ensures Ends(first, Timeouts(call, n) + [Exchange(call, r)], s, None, [], Returned(s, true))
    {
      FulfillScript(first, [], s, h, CachedReplay, n, r);
      assert [] + Timeouts(call, n) == Timeouts(call, n);
    }
    TimeoutsMore(call, 2);
    assert [] + Timeouts(call, 2) == Timeouts(call, 2);
    FulfillScript(first, [], s, h, CachedReplay, 2, Failed(Timeout));
  }

  // ----- An abandon under the lock -----------------------------------------------------------------------

  /** An abandon of a HELD session releases its hold: up to two timed-out releases and then a settled one abandon
      it; a third timeout is an incomplete compensation and any other error is raised, both with nothing saved. */
  lemma AbandonReleases(s: Session, now: int)
    requires s.state == Held && s.hold.Some?
    ensures var first, call := Granted(AtAbandonLock, s, None, now), ReleaseHold(s.hold.value);
            && (forall n: nat :: n <= 2 ==> Awaits(first, Timeouts(call, n), s, call))
            && (forall n: nat, r :: n <= 2 && Settles(r) ==>
                  Ends(first, Timeouts(call, n) + [Exchange(call, r)], s.(state := Abandoned), None, [AbandonDone],
                       Returned(s.(state := Abandoned), false)))
            && Ends(first, Timeouts(call, 3), s, None, [], Raised(CompensationIncomplete))
            && (forall n: nat, f :: n <= 2 && Breaks(f) ==>
                  Ends(first, Timeouts(call, n) + [Exchange(call, Failed(f))], s, None, [], Raised(Error.Gateway(f))))
  {
    hide Awaits, Timeouts;
    var first := Granted(AtAbandonLock, s, None, now);
    assert first == Thread(AtRelease(Abandoning, 0), s, None, []) && Exec(first, []) == Some(first);
    hide Exec, Enter, Granted;
    var h := s.hold.value;
    var call := ReleaseHold(h);
    Counted(AbandonDone);
    forall n: nat | n <= 2 ensures Awaits(first, Timeouts(call, n), s, call) {
      ReleaseWaits(first, [], s, h, Abandoning, n);
      assert [] + Timeouts(call, n) == Timeouts(call, n);
    }
    forall n: nat, r | n <= 2 && Settles(r)
      ensures Ends(first, Timeouts(call, n) + [Exchange(call, r)], s.(state := Abandoned), None, [AbandonDone],
                   Returned(s.(state := Abandoned), false))
    {
      ReleaseScript(first, [], s, h, Abandoning, n, r);
      assert [] + Timeouts(call, n) == Timeouts(call, n);
    }
    TimeoutsMore(call, 2);
    assert [] + Timeouts(call, 2) == Timeouts(call, 2);
    ReleaseScript(first, [], s, h, Abandoning, 2, Failed(Timeout));
    forall n: nat, f | n <= 2 && Breaks(f)
      ensures Ends(first, Timeouts(call, n) + [Exchange(call, Failed(f))], s, None, [], Raised(Error.Gateway(f)))
    {
      ReleaseScript(first, [], s, h, Abandoning, n, Failed(f));
      assert [] + Timeouts(call, n) == Timeouts(call, n);
    }
  }

  /** Any other abandon makes no call: a session that is over or pending is refused, and one with nothing held is
      abandoned at once. */
  lemma AbandonWithoutCall(s: Session, now: int)
    requires s.state != Held || s.hold.None?
    ensures var first := Granted(AtAbandonLock, s, None, now);
            if s.state in {Created, Held}
            then Ends(first, [], s.(state := Abandoned), None, [AbandonDone], Returned(s.(state := Abandoned), false))
            else Ends(first, [], s, None, [], Raised(InvalidTransition))
  {
    Counted(AbandonDone);
  }

  // ----- A hold under the lock -----------------------------------------------------------------------------

  /** The request for the hold: product and quantity of every line. */
  predicate Requests(items: seq<HoldItem>, lines: seq<Line>) {
    && |items| == |lines|
    && forall i :: 0 <= i < |lines| ==> items[i].pid == lines[i].pid && items[i].quantity == lines[i].quantity
  }

  predicate ShortOf(lines: seq<Line>, levels: map<Pid, int>) {
    exists i :: 0 <= i < |lines| && lines[i].quantity > (if lines[i].pid in levels then levels[lines[i].pid] else 0)
  }

  lemma {:induction false} ShortIs(lines: seq<Line>, levels: map<Pid, int>)
    ensures FirstShort(lines, levels).Some? <==> ShortOf(lines, levels)
  {
    if lines != [] {
      ShortIs(lines[1..], levels);
      if ShortOf(lines[1..], levels) {
        var i :| 0 <= i < |lines| - 1 && (var l :=
          lines[1..][i]; l.quantity > (if l.pid in levels then levels[l.pid] else 0));
        assert lines[1..][i] == lines[i + 1];
      }
      if ShortOf(lines, levels) {
        var i :| 0 <= i < |lines| && lines[i].quantity > (if lines[i].pid in levels then levels[lines[i].pid] else 0);
        assert i > 0 ==> lines[1..][i - 1] == lines[i];
      }
    }
  }

  /** A hold section of a CREATED session reads the stock.  A line the stock does not cover ends it; a covered
      cart, or a read that fails in any way, goes on to the hold, whose failure leaves the session as it is and
      whose success freezes the lines, under the name, in a HELD session.  Inside place_order the section then
      hands over to a confirm under place_order's name and key. */
  lemma HoldAsks(lines: seq<Line>, customer: string, next: AfterHold, s: Session, now: int, reply: Reply,
                 items: seq<HoldItem>)
    requires s.state == Created && (reply.Stock? || reply.Failed?) && Requests(items, lines)
    ensures var first := Granted(AtHoldLock(lines, customer, next), s, None, now);
            var read := [Exchange(GetInventory, reply)];
            && Awaits(first, [], s, GetInventory)
            && if reply.Stock? && ShortOf(lines, reply.levels)
               then Ends(first, read, s, None, [], Raised(InsufficientStock))
               else
                 && Awaits(first, read, s, CreateHold(items))
                 && (forall f :: Ends(first, read + [Exchange(CreateHold(items), Failed(f))], s, None,
                                      if f.Upstream? then [HoldFailed] else [], Raised(Error.Gateway(f))))
                 && (forall h, e ::
                       var y := Session(s.id, s.ref, Held, Some(h), s.order, Some(e), s.key, Some(customer), lines);
                       var pc := if next == Return then Done(Returned(y, false))
                                 else AtConfirmLock(Some(next.customer), next.key);
                       Exec(first, read + [Exchange(CreateHold(items), HoldMade(h, e))])
                         == Some(Thread(pc, y, None, [HoldPlaced])))
  {
    var first := Granted(AtHoldLock(lines, customer, next), s, None, now);
    assert first == Thread(AtStock(lines, customer, next), s, None, []);
    var read := [Exchange(GetInventory, reply)];
    OneExchange(first, Exchange(GetInventory, reply));
    if reply.Stock? {
      ShortIs(lines, reply.levels);
    }
    if !(reply.Stock? && ShortOf(lines, reply.levels)) {
      var u := Thread(AtCreateHold(lines, customer, next), s, None, []);
      assert items == HoldItems(lines);
      assert Exec(first, read) == Some(u);
      hide Exec, Enter, Granted;
      Counted(HoldFailed);
      Counted(HoldPlaced);
      forall f ensures Ends(first, read + [Exchange(CreateHold(items), Failed(f))], s, None,
                            if f.Upstream? then [HoldFailed] else [], Raised(Error.Gateway(f)))
      {
        CreateHoldEnded(first, read, u, lines, customer, next, Failed(f));
      }
      forall h, e
        ensures var y := Session(s.id, s.ref, Held, Some(h), s.order, Some(e), s.key, Some(customer), lines);
                var pc := if next == Return then Done(Returned(y, false))
                          else AtConfirmLock(Some(next.customer), next.key);
                Exec(first, read + [Exchange(CreateHold(items), HoldMade(h, e))])
                  == Some(Thread(pc, y, None, [HoldPlaced]))
      {
        CreateHoldEnded(first, read, u, lines, customer, next, HoldMade(h, e));
      }
    }
  }

  lemma HoldRefused(lines: seq<Line>, customer: string, next: AfterHold, s: Session, now: int)
    requires s.state != Created
    ensures Ends(Granted(AtHoldLock(lines, customer, next), s, None, now), [], s, None, [], Raised(InvalidTransition))
  {
  }

  // ----- Before the lock --------------------------------------------------------------------------------------

  /** The operation stops before its lock with this error and writes nothing. */
  predicate StartsRaising(e: Effect, error: Error) {
    e == Effect(Done(Raised(error)), None, None, None)
  }

  predicate StartsWaiting(e: Effect, pc: Pc) {
    WantsLock(pc) && e == Effect(pc, None, None, None)
  }

  /** place_hold refuses an empty cart first, then a cart that makes no lines, then a session that is not there or
      not CREATED. */
  lemma PlaceHoldStarts(catalog: Catalog, items: seq<Item>, customer: string, session: Option<Session>,
                        cached: Option<Record>)
    ensures var e, lines := Start(PlaceHold(items, customer), catalog, session, cached), CartLines(catalog, items);
            && (items == [] ==> StartsRaising(e, InvalidTransition))
            && (items != [] && lines.Err? ==> StartsRaising(e, lines.error))
            && (items != [] && lines.Ok? && session == None ==> StartsRaising(e, SessionNotFound))
            && (items != [] && lines.Ok? && session.Some? && session.value.state != Created ==>
                  StartsRaising(e, InvalidTransition))
            && (items != [] && lines.Ok? && session.Some? && session.value.state == Created ==>
                  StartsWaiting(e, AtHoldLock(lines.value, customer, Return)))
  {
  }

  /** The name an order goes under: the one given, or else the session's, or else a placeholder. */
  predicate Names(customer: string, s: Session, name: string) {
    if customer != "" then name == customer
    else if s.customer == None || s.customer == Some("") then name == "Guest"
    else s.customer == Some(name)
  }

  /** place_order serves a cached record whatever the session's state, making the session what the record says;
      it refuses a session that is over; it holds for a CREATED session as place_hold does, to confirm afterwards,
      and confirms any other, under one name in either case. */
  lemma PlaceOrderStarts(catalog: Catalog, items: seq<Item>, customer: string, key: Key, s: Session,
                         cached: Option<Record>, name: string)
    requires Names(customer, s, name)
    ensures var e := Start(PlaceOrder(items, customer, key), catalog, Some(s), cached);
            var lines := CartLines(catalog, items);
            && (cached.Some? ==>
                  var r := cached.value;
                  var y := s.(state := if s.state in {Created, Held, FulfillPending} then r.body.state else s.state,
                              order := if r.order.Some? then r.order else s.order);
                  e.pc == Done(Returned(y, true)) && e.put == None && e.event == None
                  && (e.saved == Some(y) || (e.saved == None && y == s)))
            && (cached.None? && s.state in {Confirmed, Abandoned, Compensated, Reconciled} ==>
                  StartsRaising(e, InvalidTransition))
            && (cached.None? && s.state in {Held, FulfillPending} ==>
                  StartsWaiting(e, AtConfirmLock(Some(name), key)))
            && (cached.None? && s.state == Created ==>
                  && (items == [] ==> StartsRaising(e, InvalidTransition))
                  && (items != [] && lines.Err? ==> StartsRaising(e, lines.error))
                  && (items != [] && lines.Ok? ==>
                        StartsWaiting(e, AtHoldLock(lines.value, name, ThenConfirm(name, key)))))
    ensures StartsRaising(Start(PlaceOrder(items, customer, key), catalog, None, cached), SessionNotFound)
  {
  }

  /** The service's confirm looks at the hold of a HELD or pending session with no key; a hold that is gone or
      done is an expired hold, any other failure is raised, and an active one leads on to the confirm.  Any other
      session, or none, is left to the confirm. */
  lemma GatedConfirmStarts(catalog: Catalog, customer: Option<string>, key: Key, session: Option<Session>,
                           cached: Option<Record>, local: Session)
    ensures var e := Start(GatedConfirm(customer, key), catalog, session, cached);
            if session.Some? && session.value.state in {Held, FulfillPending} && session.value.key == None
               && session.value.hold.Some?
            then
              var pc := AtGate(session.value.hold.value, customer, key);
              && e == Effect(pc, None, None, None)
              && CallOf(pc, local) == GetHold(session.value.hold.value)
              && StartsWaiting(Resume(pc, local, Accepted), AtConfirmLock(customer, key))
              && (forall f :: StartsRaising(Resume(pc, local, Failed(f)),
                                            if f == Upstream(404) || f == Upstream(409) then Error.HoldExpired
                                            else Error.Gateway(f)))
            else StartsWaiting(e, AtConfirmLock(customer, key))
  {
  }

  /** Without a session whatever gets the lock raises that it was not found. */
  lemma MissingSession(pc: Pc, cached: Option<Record>, now: int)
    requires WantsLock(pc)
    ensures StartsRaising(Enter(pc, None, cached, now), SessionNotFound)
  {
  }
}
