/** The inventory-hold service (docker/mock-upstreams/ihms/app.py).

`Ihms` is the service state as a value, with one function per endpoint; `IhmsService` is the
service as it is written, updating its two dictionaries in place.
*/
module Inventory {
  import opened Models
  const HOLD_TTL := 900

  datatype Status = Active | Released | Fulfilled

  datatype HoldRecord = HoldRecord(status: Status, items: seq<HoldItem>, reserved: map<Pid, int>, expires: int)

  datatype Ihms = Ihms(inventory: map<Pid, int>, holds: map<HoldId, HoldRecord>)

  function Level(levels: map<Pid, int>, p: Pid): int {
    if p in levels then levels[p] else 0
  }

  // ----- The four endpoints -------------------------------------------------------------

  /** The loop's test: every line on its own fits the level it finds. */
  predicate Covers(levels: map<Pid, int>, items: seq<HoldItem>) {
    forall i :: 0 <= i < |items| ==> items[i].quantity <= Level(levels, items[i].pid)
  }

  /** `reserved[product_id] = quantity`: the last line of a product wins ... */
  function Reserve(items: seq<HoldItem>): map<Pid, int> {
    if items == [] then map[] else
      var last := items[|items| - 1];
      Reserve(items[..|items| - 1])[last.pid := last.quantity]
  }

  /** ... but the dictionary keeps the products in order of first appearance. */
  function ReserveOrder(items: seq<HoldItem>): (pids: seq<Pid>)
    ensures forall p :: p in pids <==> p in Reserve(items)
    ensures forall i, j :: 0 <= i < j < |pids| ==> pids[i] != pids[j]
  {
    if items == [] then [] else
      var last := items[|items| - 1];
      var pids := ReserveOrder(items[..|items| - 1]);
      if last.pid in pids then pids else pids + [last.pid]
  }

  /** The levels after the products in `taken` have been deducted. */
  function Deduct(levels: map<Pid, int>, reserved: map<Pid, int>, taken: seq<Pid>): map<Pid, int> {
    map p | p in levels :: if p in taken then levels[p] - Level(reserved, p) else levels[p]
  }

  /** How many products are taken out before one is unknown to the inventory (a KeyError). */
  function Taken(levels: map<Pid, int>, pids: seq<Pid>): (n: nat)
    ensures n <= |pids|
    ensures forall i :: 0 <= i < n ==> pids[i] in levels
    ensures n < |pids| ==> pids[n] !in levels
  {
    if pids == [] || pids[0] !in levels then 0 else 1 + Taken(levels, pids[1..])
  }

  datatype HoldAnswer = Made(record: HoldRecord) | Refused | Crashed

  function CreateHoldAt(s: Ihms, items: seq<HoldItem>, newId: HoldId, now: int): (Ihms, HoldAnswer) {
    if !Covers(s.inventory, items) then (s, Refused) else
      var pids, reserved := ReserveOrder(items), Reserve(items);
      var n := Taken(s.inventory, pids);
      var inventory := Deduct(s.inventory, reserved, pids[..n]);
      if n < |pids| then (s.(inventory := inventory), Crashed) else
        var record := HoldRecord(Active, items, reserved, now + HOLD_TTL);
        (Ihms(inventory, s.holds[newId := record]), Made(record))
  }

  function Restock(levels: map<Pid, int>, reserved: map<Pid, int>): map<Pid, int> {
    map p | p in levels.Keys + reserved.Keys :: Level(levels, p) + Level(reserved, p)
  }

  /** Answers are HTTP statuses. */
  function ReleaseHoldAt(s: Ihms, h: HoldId): (Ihms, int) {
    if h !in s.holds then (s, 404)
    else if s.holds[h].status == Fulfilled then (s, 409)
    else (Ihms(Restock(s.inventory, s.holds[h].reserved), s.holds - {h}), 204)
  }

  function FulfillHoldAt(s: Ihms, h: HoldId): (Ihms, int) {
    if h !in s.holds then (s, 404)
    else if s.holds[h].status == Fulfilled then (s, 200)
    else (s.(holds := s.holds[h := s.holds[h].(status := Fulfilled)]), 200)
  }

  function GetHoldAt(s: Ihms, h: HoldId): int {
    if h !in s.holds then 404 else if s.holds[h].status == Released then 409 else 200
  }

  // ----- The service in place ---------------------------------------------------------------

  class IhmsService {
    var inventory: map<Pid, int>
    var holds: map<HoldId, HoldRecord>
    var forceHoldStatus: Option<int>

    function Value(): Ihms
      reads this
    {
      Ihms(inventory, holds)
    }

    constructor (stock: map<Pid, int>)
      ensures Value() == Ihms(stock, map[]) && forceHoldStatus == None
    {
      inventory, holds, forceHoldStatus := stock, map[], None;
    }

    /** The first loop: check every line and note what to reserve. */
    method Gather(items: seq<HoldItem>) returns (refused: bool, reserved: map<Pid, int>, pids: seq<Pid>)
      ensures refused <==> !Covers(inventory, items)
      ensures !refused ==> reserved == Reserve(items) && pids == ReserveOrder(items)
    {
      reserved, pids := map[], [];
      for i := 0 to |items|
        invariant Covers(inventory, items[..i])
        invariant reserved == Reserve(items[..i]) && pids == ReserveOrder(items[..i])
      {
        var item := items[i];
        assert items[..i + 1][..i] == items[..i];
        var available := if item.pid in inventory then inventory[item.pid] else 0;
        if item.quantity > available {
          refused := true;
          return;
        }
        if item.pid !in reserved {
          pids := pids + [item.pid];
        }
        reserved := reserved[item.pid := item.quantity];
      }
      assert items[..|items|] == items;
      refused := false;
    }

    /** The second loop: take the reserved quantities out, product by product. */
    method TakeOut(reserved: map<Pid, int>, pids: seq<Pid>) returns (n: nat)
      requires forall p :: p in pids ==> p in reserved
      requires forall i, j :: 0 <= i < j < |pids| ==> pids[i] != pids[j]
      modifies this`inventory
      ensures n == Taken(old(inventory), pids)
      ensures inventory == Deduct(old(inventory), reserved, pids[..n])
    {
      assert Deduct(inventory, reserved, pids[..0]) == inventory;
      for i := 0 to |pids|
        invariant forall j :: 0 <= j < i ==> pids[j] in old(inventory)
        invariant inventory == Deduct(old(inventory), reserved, pids[..i])
      {
        if pids[i] !in inventory {
          TakenIs(old(inventory), pids, i);
          return i;
        }
        DeductStep(old(inventory), reserved, pids, i);
        inventory := inventory[pids[i] := inventory[pids[i]] - reserved[pids[i]]];
      }
      n := |pids|;
      TakenIs(old(inventory), pids, n);
    }

    method CreateHold(items: seq<HoldItem>, newId: HoldId, now: int) returns (answer: HoldAnswer)
      modifies this`inventory, this`holds
      ensures if forceHoldStatus == Some(409) then Value() == old(Value()) && answer == Refused
              else (Value(), answer) == CreateHoldAt(old(Value()), items, newId, now)
    {
      if forceHoldStatus == Some(409) {
        return Refused;
      }
      var refused, reserved, pids := Gather(items);
      if refused {
        return Refused;
      }
      var n := TakeOut(reserved, pids);
      if n < |pids| {
        return Crashed;
      }
      var record := HoldRecord(Active, items, reserved, now + HOLD_TTL);
      holds := holds[newId := record];
      answer := Made(record);
    }

    method ReleaseHold(h: HoldId) returns (status: int)
      modifies this`inventory, this`holds
      ensures (Value(), status) == ReleaseHoldAt(old(Value()), h)
    {
      if h !in holds {
        return 404;
      }
      var record := holds[h];
      if record.status == Fulfilled {
        return 409;
      }
      holds := holds - {h};
      var left := record.reserved.Keys;
      while left != {}
        invariant left <= record.reserved.Keys && holds == old(holds) - {h}
        invariant inventory == Restock(old(inventory), record.reserved - left)
        decreases left
      {
        var p :| p in left;
        inventory := inventory[p := (if p in inventory then inventory[p] else 0) + record.reserved[p]];
        left := left - {p};
      }
      assert record.reserved - {} == record.reserved;
      status := 204;
    }

    method FulfillHold(h: HoldId) returns (status: int)
      modifies this`holds
      ensures (Value(), status) == FulfillHoldAt(old(Value()), h)
    {
      if h !in holds {
        return 404;
      }
      if holds[h].status == Fulfilled {
        return 200;
      }
      holds := holds[h := holds[h].(status := Fulfilled)];
      status := 200;
    }

    method GetHold(h: HoldId) returns (status: int)
      ensures status == GetHoldAt(Value(), h)
    {
      if h !in holds {
        return 404;
      }
      status := if holds[h].status == Released then 409 else 200;
    }
  }

  lemma DeductStep(levels: map<Pid, int>, reserved: map<Pid, int>, pids: seq<Pid>, n: nat)
    requires n < |pids| && pids[n] in levels && pids[n] !in pids[..n]
    ensures var p := pids[n];
            var before := Deduct(levels, reserved, pids[..n]);
            Deduct(levels, reserved, pids[..n + 1]) == before[p := before[p] - Level(reserved, p)]
  {
    assert pids[..n + 1] == pids[..n] + [pids[n]];
  }

  lemma {:induction false} TakenIs(levels: map<Pid, int>, pids: seq<Pid>, n: nat)
    requires n <= |pids|
    requires forall i :: 0 <= i < n ==> pids[i] in levels
    requires n < |pids| ==> pids[n] !in levels
    ensures Taken(levels, pids) == n
  {
    if n > 0 {
      TakenIs(levels, pids[1..], n - 1);
    }
  }
}
