/** The saga counters (src/observability/metrics.py, src/observability/saga_events.py). */
module Metrics {
  import opened Models

  datatype Event =
    | HoldPlaced
    | HoldFailed
    | ConfirmSucceeded(reconciled: bool)
    | CompensationDone
    | AbandonDone
    | StatusUnknown

  datatype Counter =
    | HoldsPlacedTotal
    | HoldsFailedTotal
    | ConfirmsSuccessTotal
    | ConfirmsReconciledTotal
    | CompensationsTotal
    | AbandonsTotal
    | OrderStatusUnknownTotal

  datatype Counters = Counters(holdsPlaced: int, holdsFailed: int, confirmsSuccess: int, confirmsReconciled: int,
                               compensations: int, abandons: int, statusUnknown: int)

  const ZERO := Counters(0, 0, 0, 0, 0, 0, 0)

  function Add(c: Counters, counter: Counter, amount: int): Counters {
    match counter
    case HoldsPlacedTotal => c.(holdsPlaced := c.holdsPlaced + amount)
    case HoldsFailedTotal => c.(holdsFailed := c.holdsFailed + amount)
    case ConfirmsSuccessTotal => c.(confirmsSuccess := c.confirmsSuccess + amount)
    case ConfirmsReconciledTotal => c.(confirmsReconciled := c.confirmsReconciled + amount)
    case CompensationsTotal => c.(compensations := c.compensations + amount)
    case AbandonsTotal => c.(abandons := c.abandons + amount)
    case OrderStatusUnknownTotal => c.(statusUnknown := c.statusUnknown + amount)
  }

  /** Which counters an event moves. */
  function Tally(c: Counters, event: Option<Event>): Counters {
    match event
    case None => c
    case Some(HoldPlaced) => Add(c, HoldsPlacedTotal, 1)
    case Some(HoldFailed) => Add(c, HoldsFailedTotal, 1)
    case Some(ConfirmSucceeded(reconciled)) =>
      var counted := Add(c, ConfirmsSuccessTotal, 1);
      if reconciled then Add(counted, ConfirmsReconciledTotal, 1) else counted
    case Some(CompensationDone) => Add(c, CompensationsTotal, 1)
    case Some(AbandonDone) => Add(c, AbandonsTotal, 1)
    case Some(StatusUnknown) => Add(c, OrderStatusUnknownTotal, 1)
  }

  /** Every event moves its own counter by one and no other; a reconciled success moves two. */
  lemma TallyIs(c: Counters, event: Option<Event>)
    ensures var t, e := Tally(c, event), event;
            && t.holdsPlaced == c.holdsPlaced + (if e == Some(HoldPlaced) then 1 else 0)
            && t.holdsFailed == c.holdsFailed + (if e == Some(HoldFailed) then 1 else 0)
            && t.confirmsSuccess == c.confirmsSuccess + (if e.Some? && e.value.ConfirmSucceeded? then 1 else 0)
            && t.confirmsReconciled == c.confirmsReconciled + (if e == Some(ConfirmSucceeded(true)) then 1 else 0)
            && t.compensations == c.compensations + (if e == Some(CompensationDone) then 1 else 0)
            && t.abandons == c.abandons + (if e == Some(AbandonDone) then 1 else 0)
            && t.statusUnknown == c.statusUnknown + (if e == Some(StatusUnknown) then 1 else 0)
  {
  }

  lemma AddIs(c: Counters, counter: Counter, amount: int)
    ensures Add(c, counter, amount) ==
              Counters(c.holdsPlaced + (if counter == HoldsPlacedTotal then amount else 0),
                       c.holdsFailed + (if counter == HoldsFailedTotal then amount else 0),
                       c.confirmsSuccess + (if counter == ConfirmsSuccessTotal then amount else 0),
                       c.confirmsReconciled + (if counter == ConfirmsReconciledTotal then amount else 0),
                       c.compensations + (if counter == CompensationsTotal then amount else 0),
                       c.abandons + (if counter == AbandonsTotal then amount else 0),
                       c.statusUnknown + (if counter == OrderStatusUnknownTotal then amount else 0))
  {
  }

  class MetricsRegistry {
    var holdsPlaced: int
    var holdsFailed: int
    var confirmsSuccess: int
    var confirmsReconciled: int
    var compensations: int
    var abandons: int
    var statusUnknown: int

    function Value(): Counters
      reads this
    {
      Counters(holdsPlaced, holdsFailed, confirmsSuccess, confirmsReconciled, compensations, abandons, statusUnknown)
    }

    constructor ()
      ensures Value() == ZERO
    {
      holdsPlaced, holdsFailed, confirmsSuccess, confirmsReconciled := 0, 0, 0, 0;
      compensations, abandons, statusUnknown := 0, 0, 0;
    }

    method Increment(counter: Counter, amount: int)
      modifies this
      ensures Value() == Add(old(Value()), counter, amount)
    {
      match counter {
        case HoldsPlacedTotal => holdsPlaced := holdsPlaced + amount;
        case HoldsFailedTotal => holdsFailed := holdsFailed + amount;
        case ConfirmsSuccessTotal => confirmsSuccess := confirmsSuccess + amount;
        case ConfirmsReconciledTotal => confirmsReconciled := confirmsReconciled + amount;
        case CompensationsTotal => compensations := compensations + amount;
        case AbandonsTotal => abandons := abandons + amount;
        case OrderStatusUnknownTotal => statusUnknown := statusUnknown + amount;
      }
    }

    method RecordConfirmSuccess(reconciled: bool)
      modifies this
      ensures Value() == Tally(old(Value()), Some(ConfirmSucceeded(reconciled)))
    {
      Increment(ConfirmsSuccessTotal, 1);
      if reconciled {
        Increment(ConfirmsReconciledTotal, 1);
      }
    }
  }
}
