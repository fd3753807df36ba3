/** The three retry loops of the saga steps (src/saga/steps).

The ...Next functions say what one attempt does with its reply, the ...Run functions what a
whole loop makes of the replies it got, and the methods are the loops themselves.
*/
module Retries {
  import opened Models
  import opened Gateways

  const MAX_RETRIES: nat := 2

  datatype Progress<+T> = Trying(attempt: nat) | Ended(result: T)

  type Lookup = Result<Option<Order>, Failure>
  type Release = Result<bool, Failure>

  predicate TimedOut(reply: Reply) {
    reply == Failed(Timeout)
  }

  /** A hold that is missing or in conflict counts as dealt with. */
  predicate Settled(reply: Reply) {
    reply == Accepted || reply == Failed(Upstream(404)) || reply == Failed(Upstream(409))
  }

  /** After t attempts the loop has slept 1 + 2 + ... + (t - 1) steps. */
  function BackOff(attempts: nat): nat {
    attempts * (if attempts == 0 then 0 else attempts - 1) / 2
  }

  lemma BackOffStep(t: nat)
    ensures BackOff(t + 1) == BackOff(t) + t
  {
    assert (t + 1) * t == t * (if t == 0 then 0 else t - 1) + 2 * t;
  }

  /** A loop that uses all its retries sleeps m(m + 1)/2 steps. */
  lemma {:induction false} BackOffSum(m: nat)
    ensures 2 * BackOff(m + 1) == m * (m + 1)
  {
    if m > 0 {
      BackOffSum(m - 1);
      BackOffStep(m);
      hide BackOff;
      assert (m - 1) * m + 2 * m == m * (m + 1);
    }
  }

  // ----- find_order_by_reference --------------------------------------------------

  function FindNext(attempt: nat, max: nat, reply: Reply): Progress<Lookup>
    requires reply.Failed? || reply.Found?
  {
    match reply
    case Found(Some(order)) => Ended(Ok(Some(order)))
    case Found(None) => if attempt < max then Trying(attempt + 1) else Ended(Ok(None))
    case Failed(Timeout) => if attempt < max then Trying(attempt + 1) else Ended(Err(Timeout))
    case Failed(f) => Ended(Err(f))
  }

  function FindRun(max: nat, replies: seq<Reply>): Progress<Lookup>
    requires forall r :: r in replies ==> r.Failed? || r.Found?
  {
    if replies == [] then Trying(0) else
      var n := |replies| - 1;
      match FindRun(max, replies[..n])
      case Trying(attempt) => FindNext(attempt, max, replies[n])
      case Ended(result) => Ended(result)
  }

  predicate Inconclusive(reply: Reply) {
    reply == Found(None) || TimedOut(reply)
  }

  /** What the loop returns, stated on its replies: it goes on exactly over inconclusive replies,
      answers None only when the last allowed lookup completed empty, and raises a timeout only
      when the last allowed lookup timed out. */
  predicate FindResult(max: nat, replies: seq<Reply>, result: Lookup) {
    && 0 < |replies| <= max + 1
    && (forall i :: 0 <= i < |replies| - 1 ==> Inconclusive(replies[i]))
    && var last := replies[|replies| - 1];
       match result
       case Ok(Some(order)) => last == Found(Some(order))
       case Ok(None) => last == Found(None) && |replies| == max + 1
       case Err(f) => last == Failed(f) && (f == Timeout ==> |replies| == max + 1)
  }

  lemma {:induction false} FindRunTrying(max: nat, replies: seq<Reply>, attempt: nat)
    requires forall r :: r in replies ==> r.Failed? || r.Found?
    ensures FindRun(max, replies) == Trying(attempt) <==>
              attempt == |replies| <= max && forall i :: 0 <= i < |replies| ==> Inconclusive(replies[i])
  {
    if replies != [] {
      var n := |replies| - 1;
      FindRunTrying(max, replies[..n], n);
      if FindRun(max, replies[..n]).Trying? {
        FindRunTrying(max, replies[..n], FindRun(max, replies[..n]).attempt);
      }
    }
  }

  lemma {:induction false} FindRunMeans(max: nat, replies: seq<Reply>, result: Lookup)
    requires forall r :: r in replies ==> r.Failed? || r.Found?
    requires |replies| > 0 && FindRun(max, replies[..|replies| - 1]).Trying?
    ensures FindRun(max, replies) == Ended(result) <==> FindResult(max, replies, result)
  {
    var n := |replies| - 1;
    FindRunTrying(max, replies[..n], FindRun(max, replies[..n]).attempt);
    forall i | 0 <= i < n ensures Inconclusive(replies[i]) {
      assert replies[..n][i] == replies[i];
    }
    assert n <= max && FindRun(max, replies) == FindNext(n, max, replies[n]);
  }

  /** One more attempt of the loop. */
  lemma FindStep(max: nat, replies: seq<Reply>, reply: Reply)
    requires forall r :: r in replies ==> r.Failed? || r.Found?
    requires reply.Failed? || reply.Found?
    requires FindRun(max, replies) == Trying(|replies|)
    ensures forall r :: r in replies + [reply] ==> r.Failed? || r.Found?
    ensures FindRun(max, replies + [reply]) == FindNext(|replies|, max, reply)
    ensures FindNext(|replies|, max, reply).Ended? ==>
              FindResult(max, replies + [reply], FindNext(|replies|, max, reply).result)
  {
    var all := replies + [reply];
    assert all[..|replies|] == replies;
    if FindNext(|replies|, max, reply).Ended? {
      FindRunMeans(max, all, FindNext(|replies|, max, reply).result);
    }
  }

  method FindOrderByReference(gateway: Gateway, ref: Ref, maxRetries: nat) returns (result: Lookup)
    modifies gateway
    ensures old(gateway.log) <= gateway.log
    ensures var trace := gateway.log[|old(gateway.log)|..];
            && (forall i :: 0 <= i < |trace| ==>
                 trace[i].call == FindOrder(ref) && Answers(trace[i].call, trace[i].reply))
            && FindResult(maxRetries, Replies(trace), result)
            && gateway.slept == old(gateway.slept) + BackOff(|trace|)
  {
    hide FindRun, FindResult, BackOff;
    var lastTimeout: Option<Failure> := None;
    ghost var trace: seq<Exchange> := [];
    FindNone(maxRetries);
    for attempt := 0 to maxRetries + 1
      invariant |trace| == attempt && gateway.log == old(gateway.log) + trace
      invariant forall i :: 0 <= i < |trace| ==>
                  trace[i].call == FindOrder(ref) && Answers(trace[i].call, trace[i].reply)
      invariant attempt <= maxRetries ==> FindRun(maxRetries, Replies(trace)) == Trying(attempt)
      invariant attempt > maxRetries ==> lastTimeout == None && FindResult(maxRetries, Replies(trace), Ok(None))
      invariant gateway.slept == old(gateway.slept) + BackOff(if attempt <= maxRetries then attempt + 1 else attempt)
    {
      ghost var before := trace;
      var reply := gateway.Await(FindOrder(ref));
      trace := trace + [Exchange(FindOrder(ref), reply)];
      assert gateway.log[|old(gateway.log)|..] == trace;
      RepliesAppend(before, Exchange(FindOrder(ref), reply));
      FindStep(maxRetries, Replies(before), reply);
      BackOffStep(attempt + 1);
      match reply {
        case Found(order) =>
          if order.Some? {
            return Ok(order);
          }
          lastTimeout := None;
        case Failed(Timeout) =>
          lastTimeout := Some(Timeout);
          if attempt >= maxRetries {
            return Err(Timeout);
          }
        case Failed(f) =>
          return Err(f);
      }
      if attempt < maxRetries {
        gateway.Sleep(attempt + 1);
      }
    }
    assert gateway.log[|old(gateway.log)|..] == trace;
    if lastTimeout.Some? {
      assert false; // the trailing raise is unreachable
    }
    result := Ok(None);
  }

  lemma FindNone(max: nat)
    ensures FindRun(max, Replies([])) == Trying(0) && BackOff(0) == 0 && BackOff(1) == 0
  {
  }

  // ----- release_hold_safe -----------------------------------------------------------

  function ReleaseNext(attempt: nat, max: nat, reply: Reply): Progress<Release>
    requires reply.Failed? || reply.Accepted?
  {
    if Settled(reply) then Ended(Ok(true))
    else if TimedOut(reply) then (if attempt < max then Trying(attempt + 1) else Ended(Ok(false)))
    else Ended(Err(reply.why))
  }

  function ReleaseRun(max: nat, replies: seq<Reply>): Progress<Release>
    requires forall r :: r in replies ==> r.Failed? || r.Accepted?
  {
    if replies == [] then Trying(0) else
      var n := |replies| - 1;
      match ReleaseRun(max, replies[..n])
      case Trying(attempt) => ReleaseNext(attempt, max, replies[n])
      case Ended(result) => Ended(result)
  }

  /** True after some timeouts and then a settled hold; False after max + 1 timeouts; any other
      error is raised at once. */
  predicate ReleaseResult(max: nat, replies: seq<Reply>, result: Release) {
    && 0 < |replies| <= max + 1
    && (forall i :: 0 <= i < |replies| - 1 ==> TimedOut(replies[i]))
    && var last := replies[|replies| - 1];
       match result
       case Ok(true) => Settled(last)
       case Ok(false) => TimedOut(last) && |replies| == max + 1
       case Err(f) => last == Failed(f) && !Settled(last) && !TimedOut(last)
  }

  lemma {:induction false} ReleaseRunTrying(max: nat, replies: seq<Reply>, attempt: nat)
    requires forall r :: r in replies ==> r.Failed? || r.Accepted?
    ensures ReleaseRun(max, replies) == Trying(attempt) <==>
              attempt == |replies| <= max && forall i :: 0 <= i < |replies| ==> TimedOut(replies[i])
  {
    if replies != [] {
      var n := |replies| - 1;
      ReleaseRunTrying(max, replies[..n], n);
      if ReleaseRun(max, replies[..n]).Trying? {
        ReleaseRunTrying(max, replies[..n], ReleaseRun(max, replies[..n]).attempt);
      }
    }
  }

  lemma {:induction false} ReleaseRunMeans(max: nat, replies: seq<Reply>, result: Release)
    requires forall r :: r in replies ==> r.Failed? || r.Accepted?
    requires |replies| > 0 && ReleaseRun(max, replies[..|replies| - 1]).Trying?
    ensures ReleaseRun(max, replies) == Ended(result) <==> ReleaseResult(max, replies, result)
  {
    var n := |replies| - 1;
    ReleaseRunTrying(max, replies[..n], ReleaseRun(max, replies[..n]).attempt);
    forall i | 0 <= i < n ensures TimedOut(replies[i]) {
      assert replies[..n][i] == replies[i];
    }
    assert n <= max && ReleaseRun(max, replies) == ReleaseNext(n, max, replies[n]);
  }

  /** One more attempt of the loop. */
  lemma ReleaseStep(max: nat, replies: seq<Reply>, reply: Reply)
    requires forall r :: r in replies ==> r.Failed? || r.Accepted?
    requires reply.Failed? || reply.Accepted?
    requires ReleaseRun(max, replies) == Trying(|replies|)
    ensures forall r :: r in replies + [reply] ==> r.Failed? || r.Accepted?
    ensures ReleaseRun(max, replies + [reply]) == ReleaseNext(|replies|, max, reply)
    ensures ReleaseNext(|replies|, max, reply).Ended? ==>
              ReleaseResult(max, replies + [reply], ReleaseNext(|replies|, max, reply).result)
  {
    var all := replies + [reply];
    assert all[..|replies|] == replies;
    if ReleaseNext(|replies|, max, reply).Ended? {
      ReleaseRunMeans(max, all, ReleaseNext(|replies|, max, reply).result);
    }
  }

  method ReleaseHoldSafe(gateway: Gateway, hold: HoldId, maxRetries: nat) returns (result: Release)
    modifies gateway
    ensures old(gateway.log) <= gateway.log
    ensures var trace := gateway.log[|old(gateway.log)|..];
            && (forall i :: 0 <= i < |trace| ==>
                 trace[i].call == ReleaseHold(hold) && Answers(trace[i].call, trace[i].reply))
            && ReleaseResult(maxRetries, Replies(trace), result)
            && gateway.slept == old(gateway.slept) + BackOff(|trace|)
  {
    hide ReleaseRun, ReleaseResult, BackOff;
    ghost var trace: seq<Exchange> := [];
    ReleaseNone(maxRetries);
    for attempt := 0 to maxRetries + 1
      invariant |trace| == attempt <= maxRetries && gateway.log == old(gateway.log) + trace
      invariant forall i :: 0 <= i < |trace| ==>
                  trace[i].call == ReleaseHold(hold) && Answers(trace[i].call, trace[i].reply)
      invariant ReleaseRun(maxRetries, Replies(trace)) == Trying(attempt)
      invariant gateway.slept == old(gateway.slept) + BackOff(attempt + 1)
    {
      ghost var before := trace;
      var reply := gateway.Await(ReleaseHold(hold));
      trace := trace + [Exchange(ReleaseHold(hold), reply)];
      assert gateway.log[|old(gateway.log)|..] == trace;
      RepliesAppend(before, Exchange(ReleaseHold(hold), reply));
      ReleaseStep(maxRetries, Replies(before), reply);
      BackOffStep(attempt + 1);
      match reply {
        case Accepted =>
          return Ok(true);
        case Failed(Upstream(status)) =>
          if status == 404 || status == 409 {
            return Ok(true);
          }
          return Err(reply.why);
        case Failed(Timeout) =>
          if attempt >= maxRetries {
            return Ok(false);
          }
          gateway.Sleep(attempt + 1);
        case Failed(Transport) =>
          return Err(Transport);
      }
    }
    assert false; // the last attempt always returns
  }

  lemma ReleaseNone(max: nat)
    ensures ReleaseRun(max, Replies([])) == Trying(0) && BackOff(0) == 0 && BackOff(1) == 0
  {
  }

  // ----- fulfill_hold_safe -----------------------------------------------------------

  function FulfillNext(attempt: nat, max: nat, reply: Reply): Progress<bool>
    requires reply.Failed? || reply.Accepted?
  {
    if Settled(reply) then Ended(true)
    else if TimedOut(reply) && attempt < max then Trying(attempt + 1)
    else Ended(false)
  }

  function FulfillRun(max: nat, replies: seq<Reply>): Progress<bool>
    requires forall r :: r in replies ==> r.Failed? || r.Accepted?
  {
    if replies == [] then Trying(0) else
      var n := |replies| - 1;
      match FulfillRun(max, replies[..n])
      case Trying(attempt) => FulfillNext(attempt, max, replies[n])
      case Ended(result) => Ended(result)
  }

  /** True after some timeouts and then a settled hold; False at any other error, or after
      max + 1 timeouts.  Nothing is raised. */
  predicate FulfillResult(max: nat, replies: seq<Reply>, result: bool) {
    && 0 < |replies| <= max + 1
    && (forall i :: 0 <= i < |replies| - 1 ==> TimedOut(replies[i]))
    && var last := replies[|replies| - 1];
       if result then Settled(last) else !Settled(last) && (TimedOut(last) ==> |replies| == max + 1)
  }

  lemma {:induction false} FulfillRunTrying(max: nat, replies: seq<Reply>, attempt: nat)
    requires forall r :: r in replies ==> r.Failed? || r.Accepted?
    ensures FulfillRun(max, replies) == Trying(attempt) <==>
              attempt == |replies| <= max && forall i :: 0 <= i < |replies| ==> TimedOut(replies[i])
  {
    if replies != [] {
      var n := |replies| - 1;
      FulfillRunTrying(max, replies[..n], n);
      if FulfillRun(max, replies[..n]).Trying? {
        FulfillRunTrying(max, replies[..n], FulfillRun(max, replies[..n]).attempt);
      }
    }
  }

  lemma {:induction false} FulfillRunMeans(max: nat, replies: seq<Reply>, result: bool)
    requires forall r :: r in replies ==> r.Failed? || r.Accepted?
    requires |replies| > 0 && FulfillRun(max, replies[..|replies| - 1]).Trying?
    ensures FulfillRun(max, replies) == Ended(result) <==> FulfillResult(max, replies, result)
  {
    var n := |replies| - 1;
    FulfillRunTrying(max, replies[..n], FulfillRun(max, replies[..n]).attempt);
    forall i | 0 <= i < n ensures TimedOut(replies[i]) {
      assert replies[..n][i] == replies[i];
    }
    assert n <= max && FulfillRun(max, replies) == FulfillNext(n, max, replies[n]);
  }

  /** One more attempt of the loop. */
  lemma FulfillStep(max: nat, replies: seq<Reply>, reply: Reply)
    requires forall r :: r in replies ==> r.Failed? || r.Accepted?
    requires reply.Failed? || reply.Accepted?
    requires FulfillRun(max, replies) == Trying(|replies|)
    ensures forall r :: r in replies + [reply] ==> r.Failed? || r.Accepted?
    ensures FulfillRun(max, replies + [reply]) == FulfillNext(|replies|, max, reply)
    ensures FulfillNext(|replies|, max, reply).Ended? ==>
              FulfillResult(max, replies + [reply], FulfillNext(|replies|, max, reply).result)
  {
    var all := replies + [reply];
    assert all[..|replies|] == replies;
    if FulfillNext(|replies|, max, reply).Ended? {
      FulfillRunMeans(max, all, FulfillNext(|replies|, max, reply).result);
    }
  }

  method FulfillHoldSafe(gateway: Gateway, hold: HoldId, maxRetries: nat) returns (result: bool)
    modifies gateway
    ensures old(gateway.log) <= gateway.log
    ensures var trace := gateway.log[|old(gateway.log)|..];
            && (forall i :: 0 <= i < |trace| ==>
                 trace[i].call == FulfillHold(hold) && Answers(trace[i].call, trace[i].reply))
            && FulfillResult(maxRetries, Replies(trace), result)
            && gateway.slept == old(gateway.slept) + BackOff(|trace|)
  {
    hide FulfillRun, FulfillResult, BackOff;
    ghost var trace: seq<Exchange> := [];
    FulfillNone(maxRetries);
    for attempt := 0 to maxRetries + 1
      invariant |trace| == attempt <= maxRetries && gateway.log == old(gateway.log) + trace
      invariant forall i :: 0 <= i < |trace| ==>
                  trace[i].call == FulfillHold(hold) && Answers(trace[i].call, trace[i].reply)
      invariant FulfillRun(maxRetries, Replies(trace)) == Trying(attempt)
      invariant gateway.slept == old(gateway.slept) + BackOff(attempt + 1)
    {
      ghost var before := trace;
      var reply := gateway.Await(FulfillHold(hold));
      trace := trace + [Exchange(FulfillHold(hold), reply)];
      assert gateway.log[|old(gateway.log)|..] == trace;
      RepliesAppend(before, Exchange(FulfillHold(hold), reply));
      FulfillStep(maxRetries, Replies(before), reply);
      BackOffStep(attempt + 1);
      match reply {
        case Accepted =>
          return true;
        case Failed(Upstream(status)) =>
          return status == 404 || status == 409;
        case Failed(Timeout) =>
          if attempt >= maxRetries {
            return false;
          }
          gateway.Sleep(attempt + 1);
        case Failed(Transport) =>
          return false;
      }
    }
    assert false; // the last attempt always returns
  }

  lemma FulfillNone(max: nat)
    ensures FulfillRun(max, Replies([])) == Trying(0) && BackOff(0) == 0 && BackOff(1) == 0
  {
  }
}
