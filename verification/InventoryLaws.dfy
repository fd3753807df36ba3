/** What the inventory-hold service keeps, for every sequence of requests. */
module InventoryLaws {
  import opened Models
  import opened Sums
  import opened Inventory

  // ----- Conservation ---------------------------------------------------------------------

  /** What each recorded hold reserves of product `p`. */
  ghost function ReservedOf(holds: map<HoldId, HoldRecord>, p: Pid): map<HoldId, int> {
    map h | h in holds :: Level(holds[h].reserved, p)
  }

  /** Units of `p` on the shelf or in a recorded hold. */
  ghost function Total(s: Ihms, p: Pid): int {
    Level(s.inventory, p) + Sum(ReservedOf(s.holds, p))
  }

  /** A request that meets an unknown product after the check has passed (possible only for a
      quantity of zero or less) crashes with earlier products already deducted. */
  ghost function Leak(s: Ihms, items: seq<HoldItem>, p: Pid): int {
    var pids := ReserveOrder(items);
    var n := Taken(s.inventory, pids);
    if Covers(s.inventory, items) && n < |pids| && p in pids[..n] then Reserve(items)[p] else 0
  }

  lemma CreateConserves(s: Ihms, items: seq<HoldItem>, newId: HoldId, now: int, p: Pid)
    requires newId !in s.holds
    ensures Total(CreateHoldAt(s, items, newId, now).0, p) == Total(s, p) - Leak(s, items, p)
  {
    hide Reserve, ReserveOrder, Taken, Sum;
    var (s', answer) := CreateHoldAt(s, items, newId, now);
    var pids, reserved := ReserveOrder(items), Reserve(items);
    var n := Taken(s.inventory, pids);
    if Covers(s.inventory, items) {
      assert forall i :: 0 <= i < n ==> pids[i] in s.inventory;
      if answer.Made? {
        assert pids[..n] == pids;
        assert ReservedOf(s'.holds, p) == ReservedOf(s.holds, p)[newId := Level(reserved, p)];
        Insert(ReservedOf(s.holds, p), newId, Level(reserved, p));
      }
    }
  }

  lemma ReleaseConserves(s: Ihms, h: HoldId, p: Pid)
    ensures Total(ReleaseHoldAt(s, h).0, p) == Total(s, p)
  {
    if h in s.holds {
      Take(ReservedOf(s.holds, p), h);
      assert ReservedOf(s.holds - {h}, p) == ReservedOf(s.holds, p) - {h};
    }
  }

  lemma FulfillConserves(s: Ihms, h: HoldId, p: Pid)
    ensures Total(FulfillHoldAt(s, h).0, p) == Total(s, p)
  {
    assert ReservedOf(FulfillHoldAt(s, h).0.holds, p) == ReservedOf(s.holds, p);
  }

  // ----- Requests with positive quantities -----------------------------------------------------

  predicate Positive(items: seq<HoldItem>) {
    forall i :: 0 <= i < |items| ==> items[i].quantity > 0
  }

  lemma {:induction false} ReserveIsSome(items: seq<HoldItem>, p: Pid)
    requires p in Reserve(items)
    ensures exists i :: 0 <= i < |items| && items[i].pid == p && items[i].quantity == Reserve(items)[p]
  {
    var n := |items| - 1;
    if items[n].pid != p {
      ReserveIsSome(items[..n], p);
      var i :| 0 <= i < n && items[..n][i].pid == p && items[..n][i].quantity == Reserve(items[..n])[p];
      assert items[i].pid == p && items[i].quantity == Reserve(items)[p];
    }
  }

  lemma {:induction false} ReserveHas(items: seq<HoldItem>, i: nat)
    requires i < |items|
    ensures items[i].pid in Reserve(items)
  {
    var n := |items| - 1;
    if i < n {
      ReserveHas(items[..n], i);
    }
  }

  /** A covered request of positive quantities reserves only known products, within their levels. */
  lemma ReserveFits(levels: map<Pid, int>, items: seq<HoldItem>)
    requires Positive(items) && Covers(levels, items)
    ensures forall p :: p in Reserve(items) ==> p in levels && 0 < Reserve(items)[p] <= levels[p]
    ensures Taken(levels, ReserveOrder(items)) == |ReserveOrder(items)|
  {
    forall p | p in Reserve(items) ensures p in levels && 0 < Reserve(items)[p] <= levels[p] {
      ReserveIsSome(items, p);
    }
    forall i | 0 <= i < |ReserveOrder(items)| ensures ReserveOrder(items)[i] in levels {
      assert ReserveOrder(items)[i] in Reserve(items);
    }
    TakenIs(levels, ReserveOrder(items), |ReserveOrder(items)|);
  }

  /** No negative level, and every recorded hold reserves something positive. */
  ghost predicate Sound(s: Ihms) {
    && (forall p :: p in s.inventory ==> s.inventory[p] >= 0)
    && (forall h, p :: h in s.holds && p in s.holds[h].reserved ==> s.holds[h].reserved[p] > 0)
  }

  /** With positive quantities a request is made exactly when every line fits, and refused
      without a trace otherwise. */
  lemma CreatePositive(s: Ihms, items: seq<HoldItem>, newId: HoldId, now: int)
    requires Positive(items)
    ensures var (s', answer) := CreateHoldAt(s, items, newId, now);
            && (answer.Made? <==> Covers(s.inventory, items))
            && (answer == Refused <==> !Covers(s.inventory, items))
            && (answer == Refused ==> s' == s)
            && (answer.Made? ==>
                  && s'.holds == s.holds[newId := answer.record]
                  && answer.record.status == Active && answer.record.items == items
                       && answer.record.reserved == Reserve(items)
                  && forall p :: Level(s'.inventory, p) == Level(s.inventory, p) - Level(Reserve(items), p))
            && (Sound(s) ==> Sound(s'))
  {
    var (s', answer) := CreateHoldAt(s, items, newId, now);
    if Covers(s.inventory, items) {
      ReserveFits(s.inventory, items);
      var pids := ReserveOrder(items);
      assert pids[..|pids|] == pids;
      forall p ensures Level(s'.inventory, p) == Level(s.inventory, p) - Level(Reserve(items), p) {
        assert p in pids <==> p in Reserve(items);
      }
    }
  }

  // ----- What a made hold is -------------------------------------------------------------------------

  lemma {:induction false} ReserveTakesLast(items: seq<HoldItem>, i: nat)
    requires i < |items| && forall j :: i < j < |items| ==> items[j].pid != items[i].pid
    ensures items[i].pid in Reserve(items) && Reserve(items)[items[i].pid] == items[i].quantity
  {
    var n := |items| - 1;
    if i < n {
      assert items[n].pid != items[i].pid;
      ReserveTakesLast(items[..n], i);
    }
  }

  /** Products are reserved, and deducted, in the order of their first appearance: more lines only add. */
  lemma {:induction false} ReserveOrderGrows(items: seq<HoldItem>, k: nat)
    requires k <= |items|
    ensures ReserveOrder(items[..k]) <= ReserveOrder(items)
  {
    if k == |items| {
      assert items[..k] == items;
    } else {
      var n := |items| - 1;
      assert items[..n][..k] == items[..k];
      ReserveOrderGrows(items[..n], k);
    }
  }

  /** Of several lines for one product the last counts: the hold reserves that line's quantity, and the shelf
      loses exactly that.  Products without a line keep their level. */
  lemma HoldTakesLast(s: Ihms, items: seq<HoldItem>, newId: HoldId, now: int, i: nat)
    requires CreateHoldAt(s, items, newId, now).1.Made?
    requires i < |items| && forall j :: i < j < |items| ==> items[j].pid != items[i].pid
    ensures var (s', answer) := CreateHoldAt(s, items, newId, now);
            var p, reserved := items[i].pid, answer.record.reserved;
            && p in reserved && reserved[p] == items[i].quantity
            && p in s.inventory && p in s'.inventory && s'.inventory[p] == s.inventory[p] - items[i].quantity
  {
    hide Reserve, ReserveOrder, Taken, Covers;
    ReserveTakesLast(items, i);
    MadeTakesAll(s, items, newId, now);
  }

  lemma MadeTakesAll(s: Ihms, items: seq<HoldItem>, newId: HoldId, now: int)
    requires CreateHoldAt(s, items, newId, now).1.Made?
    ensures var (s', answer) := CreateHoldAt(s, items, newId, now);
            && answer.record.reserved == Reserve(items) && s'.inventory.Keys == s.inventory.Keys
            && (forall p :: p in Reserve(items) ==>
                 p in s.inventory && s'.inventory[p] == s.inventory[p] - Reserve(items)[p])
            && (forall p :: p in s.inventory && p !in Reserve(items) ==> s'.inventory[p] == s.inventory[p])
  {
    hide Reserve, Covers;
    var pids := ReserveOrder(items);
    assert pids[..|pids|] == pids;
    forall p | p in Reserve(items) ensures p in s.inventory {
      assert p in pids;
    }
  }

  /** The rest of the endpoint: a request is refused, without a trace, exactly if some line on its own asks for
      more than there is; a hold that is made is active, keeps its lines, expires 15 minutes on, is stored
      under its id beside the others, and touches no product it has no line for. */
  lemma HoldMadeIs(s: Ihms, items: seq<HoldItem>, newId: HoldId, now: int)
    ensures var (s', answer) := CreateHoldAt(s, items, newId, now);
            && (answer == Refused <==>
                  exists i :: 0 <= i < |items| &&
                    items[i].quantity > (if items[i].pid in s.inventory then s.inventory[items[i].pid] else 0))
            && (answer == Refused ==> s' == s)
            && (answer.Made? ==>
                  && s'.holds == s.holds[newId := answer.record]
                  && answer.record.status == Active && answer.record.items == items
                       && answer.record.expires == now + 900
                  && forall p :: p in s.inventory && (forall i :: 0 <= i < |items| ==> items[i].pid != p) ==>
                       p in s'.inventory && s'.inventory[p] == s.inventory[p])
  {
    hide Reserve, ReserveOrder, Taken, Deduct;
    var (s', answer) := CreateHoldAt(s, items, newId, now);
    if answer.Made? {
      MadeTakesAll(s, items, newId, now);
      forall p | p in s.inventory && (forall i :: 0 <= i < |items| ==> items[i].pid != p)
        ensures p in s'.inventory && s'.inventory[p] == s.inventory[p]
      {
        if p in Reserve(items) {
          ReserveIsSome(items, p);
          assert false;
        }
      }
    }
  }

  /** A covered request crashes exactly if it has a line for a product the inventory does not know; no hold is
      recorded then. */
  lemma CrashIs(s: Ihms, items: seq<HoldItem>, newId: HoldId, now: int)
    ensures var (s', answer) := CreateHoldAt(s, items, newId, now);
            && (answer == Crashed <==>
                  && (forall i :: 0 <= i < |items| ==>
                        items[i].quantity <= (if items[i].pid in s.inventory then s.inventory[items[i].pid] else 0))
                  && exists i :: 0 <= i < |items| && items[i].pid !in s.inventory)
            && (answer == Crashed ==> s'.holds == s.holds)
  {
    hide Reserve, ReserveOrder, Taken, Deduct;
    var pids := ReserveOrder(items);
    var n := Taken(s.inventory, pids);
    if n < |pids| {
      ReserveIsSome(items, pids[n]);
    }
    forall i | 0 <= i < |items| && items[i].pid !in s.inventory ensures n < |pids| {
      ReserveHas(items, i);
      assert items[i].pid in pids;
    }
  }

  /** The other endpoints: what each status means, and what it leaves. */
  lemma ReleaseIs(s: Ihms, h: HoldId)
    ensures var (s', status) := ReleaseHoldAt(s, h);
            && (status == 404 <==> h !in s.holds)
            && (status == 409 <==> h in s.holds && s.holds[h].status == Fulfilled)
            && (status == 204 <==> h in s.holds && s.holds[h].status != Fulfilled)
            && (status != 204 ==> s' == s)
            && (status == 204 ==>
                  && s'.holds == s.holds - {h}
                  && forall p ::
                       (if p in s'.inventory then s'.inventory[p] else 0) ==
                         (if p in s.inventory then s.inventory[p] else 0)
                         + (if p in s.holds[h].reserved then s.holds[h].reserved[p] else 0))
  {
  }

  lemma FulfillIs(s: Ihms, h: HoldId)
    ensures var (s', status) := FulfillHoldAt(s, h);
            && (status == 404 <==> h !in s.holds) && (status == 200 <==> h in s.holds)
            && s'.inventory == s.inventory && s'.holds.Keys == s.holds.Keys
            && (forall k :: k in s.holds && k != h ==> s'.holds[k] == s.holds[k])
            && (h in s.holds ==>
                  && s'.holds[h].status == Fulfilled && s'.holds[h].items == s.holds[h].items
                  && s'.holds[h].reserved == s.holds[h].reserved && s'.holds[h].expires == s.holds[h].expires)
  {
  }

  lemma GetIs(s: Ihms, h: HoldId)
    ensures GetHoldAt(s, h) == 404 <==> h !in s.holds
    ensures GetHoldAt(s, h) == 409 <==> h in s.holds && s.holds[h].status == Released
    ensures GetHoldAt(s, h) == 200 <==> h in s.holds && s.holds[h].status in {Active, Fulfilled}
  {
  }

  // ----- Every request sequence --------------------------------------------------------------------

  datatype Request =
    | Create(items: seq<HoldItem>, newId: HoldId, now: int)
    | Release(hold: HoldId)
    | Fulfill(hold: HoldId)

  function Handle(s: Ihms, r: Request): Ihms {
    match r
    case Create(items, newId, now) => CreateHoldAt(s, items, newId, now).0
    case Release(h) => ReleaseHoldAt(s, h).0
    case Fulfill(h) => FulfillHoldAt(s, h).0
  }

  function HandleAll(s: Ihms, rs: seq<Request>): Ihms {
    if rs == [] then s else Handle(HandleAll(s, rs[..|rs| - 1]), rs[|rs| - 1])
  }

  /** Hold ids are fresh UUIDs and quantities are positive. */
  ghost predicate Proper(s: Ihms, rs: seq<Request>) {
    forall n :: 0 <= n < |rs| && rs[n].Create? ==>
      Positive(rs[n].items) && rs[n].newId !in HandleAll(s, rs[..n]).holds
  }

  /** Stock is conserved and never negative, whatever is created, released or fulfilled. */
  lemma {:induction false} StockConserved(s: Ihms, rs: seq<Request>, p: Pid)
    requires Proper(s, rs) && Sound(s)
    ensures Total(HandleAll(s, rs), p) == Total(s, p)
    ensures Sound(HandleAll(s, rs))
  {
    if rs != [] {
      var n := |rs| - 1;
      var before := rs[..n];
      forall k | 0 <= k < n && before[k].Create?
        ensures Positive(before[k].items) && before[k].newId !in HandleAll(s, before[..k]).holds
      {
        assert before[..k] == rs[..k] && rs[k].Create?;
      }
      StockConserved(s, before, p);
      var m := HandleAll(s, before);
      match rs[n]
      case Create(items, newId, now) =>
        CreatePositive(m, items, newId, now);
        CreateConserves(m, items, newId, now, p);
        if Covers(m.inventory, items) {
          ReserveFits(m.inventory, items);
        }
      case Release(h) =>
        ReleaseConserves(m, h, p);
      case Fulfill(h) =>
        FulfillConserves(m, h, p);
    }
  }

  // ----- When reserved quantities are the ordered ones ------------------------------------------

  /** Units of `p` over all lines of a request. */
  function Ordered(items: seq<HoldItem>, p: Pid): int {
    if items == [] then 0 else
      var last := items[|items| - 1];
      Ordered(items[..|items| - 1], p) + (if last.pid == p then last.quantity else 0)
  }

  ghost predicate DistinctProducts(items: seq<HoldItem>) {
    forall i, j :: 0 <= i < j < |items| ==> items[i].pid != items[j].pid
  }

  lemma {:induction false} OrderedBound(items: seq<HoldItem>, i: nat)
    requires Positive(items) && i < |items|
    ensures Ordered(items, items[i].pid) >= items[i].quantity
    ensures forall p :: Ordered(items, p) >= 0
  {
    var n := |items| - 1;
    var rest := items[..n];
    assert Positive(rest);
    if rest != [] {
      OrderedBound(rest, if i < n then i else 0);
      assert i < n ==> rest[i] == items[i];
    }
  }

  lemma {:induction false} ReserveIsOrdered(items: seq<HoldItem>, p: Pid)
    requires DistinctProducts(items)
    ensures Level(Reserve(items), p) == Ordered(items, p)
  {
    if items != [] {
      var n := |items| - 1;
      var rest := items[..n];
      assert DistinctProducts(rest) by {
        forall i, j | 0 <= i < j < n ensures rest[i].pid != rest[j].pid {
          assert items[i].pid != items[j].pid;
        }
      }
      ReserveIsOrdered(rest, p);
      if p == items[n].pid && p in Reserve(rest) {
        ReserveIsSome(rest, p);
        assert false;
      }
    }
  }

  /** A repeated product reserves less than was ordered: a hold carries the ordered quantities of
      every product exactly when its lines name distinct products. */
  lemma ReservesOrderedIffDistinct(items: seq<HoldItem>)
    requires Positive(items)
    ensures (forall p :: Level(Reserve(items), p) == Ordered(items, p)) <==> DistinctProducts(items)
  {
    if DistinctProducts(items) {
      forall p ensures Level(Reserve(items), p) == Ordered(items, p) {
        ReserveIsOrdered(items, p);
      }
    } else {
      var i, j :| 0 <= i < j < |items| && items[i].pid == items[j].pid;
      RepeatedReservesLess(items, i, j);
    }
  }

  lemma {:induction false} RepeatedReservesLess(items: seq<HoldItem>, i: nat, j: nat)
    requires Positive(items) && i < j < |items| && items[i].pid == items[j].pid
    ensures Level(Reserve(items), items[j].pid) < Ordered(items, items[j].pid)
  {
    var n := |items| - 1;
    var rest := items[..n];
    var p := items[j].pid;
    assert Positive(rest);
    if j < n {
      RepeatedReservesLess(rest, i, j);
      if items[n].pid == p {
        OrderedBound(rest, j);
      }
    } else {
      OrderedBound(rest, i);
      assert rest[i] == items[i];
    }
  }
}
