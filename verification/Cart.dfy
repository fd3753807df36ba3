/** From a cart to frozen session lines (place_hold in src/saga/coordinator.py, before its lock)
and the stock check made under the lock. */
module Cart {
  import opened Models
  import opened Inventory
  import opened InventoryLaws

  datatype Item = Item(sku: Sku, quantity: int)

  datatype Product = Product(sku: Sku, name: string, pid: Pid, code: Code, price: int)

  type Catalog = map<Sku, Product>

  // ----- Merging ----------------------------------------------------------------------------

  function Quantity(items: seq<Item>, sku: Sku): int {
    if items == [] then 0 else
      var last := items[|items| - 1];
      Quantity(items[..|items| - 1], sku) + (if last.sku == sku then last.quantity else 0)
  }

  /** Quantities add up: these three equations leave no other choice for what a cart asks of a SKU. */
  lemma {:induction false} QuantityAdds(a: seq<Item>, b: seq<Item>, sku: Sku)
    ensures Quantity(a + b, sku) == Quantity(a, sku) + Quantity(b, sku)
  {
    if b == [] {
      assert a + b == a;
    } else {
      var n := |b| - 1;
      assert (a + b)[..|a| + n] == a + b[..n];
      QuantityAdds(a, b[..n], sku);
    }
  }

  lemma QuantityOne(sku: Sku, other: Sku, quantity: int)
    ensures Quantity([], sku) == 0
    ensures Quantity([Item(other, quantity)], sku) == if sku == other then quantity else 0
  {
    assert [Item(other, quantity)][..0] == [];
  }

  /** The SKUs of a cart in order of first appearance. */
  function FirstSeen(items: seq<Item>): seq<Sku> {
    if items == [] then [] else
      var skus := FirstSeen(items[..|items| - 1]);
      var last := items[|items| - 1].sku;
      if last in skus then skus else skus + [last]
  }

  /** `i` is the first position of `sku`. */
  ghost predicate FirstAt(items: seq<Item>, sku: Sku, i: nat) {
    i < |items| && items[i].sku == sku && forall j :: 0 <= j < i ==> items[j].sku != sku
  }

  lemma FirstAtPrefix(items: seq<Item>, sku: Sku, i: nat)
    requires items != [] && FirstAt(items[..|items| - 1], sku, i)
    ensures FirstAt(items, sku, i)
  {
    forall j | 0 <= j < i ensures items[j].sku != sku {
      assert items[..|items| - 1][j] == items[j];
    }
  }

  lemma {:induction false} FirstSeenHasFirst(items: seq<Item>, sku: Sku)
    ensures sku in FirstSeen(items) <==> exists j :: 0 <= j < |items| && items[j].sku == sku
    ensures sku in FirstSeen(items) ==> exists i: nat :: FirstAt(items, sku, i)
  {
    if items != [] {
      var n := |items| - 1;
      FirstSeenHasFirst(items[..n], sku);
      assert forall j :: 0 <= j < n ==> items[..n][j] == items[j];
      if sku in FirstSeen(items[..n]) {
        var i: nat :| FirstAt(items[..n], sku, i);
        FirstAtPrefix(items, sku, i);
        assert items[i].sku == sku;
      } else {
        assert forall j :: 0 <= j < n ==> items[j].sku != sku;
        if items[n].sku == sku {
          assert FirstAt(items, sku, n);
        }
      }
    }
  }

  /** Merged lines come in the order in which their SKUs first appear, each SKU once. */
  lemma {:induction false} FirstSeenInOrder(items: seq<Item>, a: nat, b: nat, i: nat, j: nat)
    requires a < b < |FirstSeen(items)|
    requires FirstAt(items, FirstSeen(items)[a], i) && FirstAt(items, FirstSeen(items)[b], j)
    ensures i < j
  {
    var n := |items| - 1;
    var skus := FirstSeen(items[..n]);
    FirstSeenHasFirst(items[..n], FirstSeen(items)[a]);
    var k: nat :| FirstAt(items[..n], FirstSeen(items)[a], k);
    FirstAtPrefix(items, FirstSeen(items)[a], k);
    assert i == k;
    if b < |skus| {
      FirstSeenHasFirst(items[..n], skus[b]);
      var l: nat :| FirstAt(items[..n], skus[b], l);
      FirstAtPrefix(items, skus[b], l);
      assert j == l;
      FirstSeenInOrder(items[..n], a, b, i, j);
    } else if j < n {
      assert items[..n][j].sku == items[n].sku;
      FirstSeenHasFirst(items[..n], items[n].sku);
    }
  }

  method MergeQuantities(items: seq<Item>) returns (skus: seq<Sku>, merged: map<Sku, int>)
    ensures skus == FirstSeen(items)
    ensures forall s :: s in merged <==> s in skus
    ensures forall s :: s in skus ==> merged[s] == Quantity(items, s)
  {
    skus, merged := [], map[];
    for i := 0 to |items|
      invariant skus == FirstSeen(items[..i])
      invariant forall s :: s in merged <==> s in skus
      invariant forall s :: (if s in merged then merged[s] else 0) == Quantity(items[..i], s)
    {
      assert items[..i + 1][..i] == items[..i];
      var item := items[i];
      var sofar := if item.sku in merged then merged[item.sku] else 0;
      if item.sku !in merged {
        skus := skus + [item.sku];
      }
      merged := merged[item.sku := sofar + item.quantity];
    }
    assert items[..|items|] == items;
  }

  // ----- Frozen lines -----------------------------------------------------------------------------

  /** A line item is validated when it is built: quantity > 0 and price >= 0. */
  predicate Acceptable(quantity: int, price: int) {
    quantity > 0 && price >= 0
  }

  function LineFor(product: Product, quantity: int): Line {
    Line(product.sku, product.name, product.pid, product.code, quantity, product.price)
  }

  function LinesFor(catalog: Catalog, items: seq<Item>, skus: seq<Sku>): Result<seq<Line>, Error> {
    if skus == [] then Ok([]) else
      var sku := skus[|skus| - 1];
      match LinesFor(catalog, items, skus[..|skus| - 1])
      case Err(e) => Err(e)
      case Ok(lines) =>
        if sku !in catalog then Err(ProductNotFound)
        else if !Acceptable(Quantity(items, sku), catalog[sku].price) then Err(LineRejected)
        else Ok(lines + [LineFor(catalog[sku], Quantity(items, sku))])
  }

  function CartLines(catalog: Catalog, items: seq<Item>): Result<seq<Line>, Error> {
    LinesFor(catalog, items, FirstSeen(items))
  }

  lemma {:induction false} LinesForMeans(catalog: Catalog, items: seq<Item>, skus: seq<Sku>)
    ensures LinesFor(catalog, items, skus).Ok? <==>
              forall i :: 0 <= i < |skus| ==>
                skus[i] in catalog && Quantity(items, skus[i]) > 0 && catalog[skus[i]].price >= 0
    ensures LinesFor(catalog, items, skus).Ok? ==>
              var lines := LinesFor(catalog, items, skus).value;
              && |lines| == |skus|
              && forall i :: 0 <= i < |skus| ==>
                   && skus[i] in catalog
                   && var p := catalog[skus[i]];
                      lines[i] == Line(p.sku, p.name, p.pid, p.code, Quantity(items, skus[i]), p.price)
  {
    if skus != [] {
      var n := |skus| - 1;
      LinesForMeans(catalog, items, skus[..n]);
      assert forall i :: 0 <= i < n ==> skus[..n][i] == skus[i];
    }
  }

  method BuildLines(catalog: Catalog, items: seq<Item>) returns (result: Result<seq<Line>, Error>)
    ensures result == CartLines(catalog, items)
  {
    hide FirstSeen, Quantity;
    var skus, merged := MergeQuantities(items);
    var lines: seq<Line> := [];
    for i := 0 to |skus|
      invariant LinesFor(catalog, items, skus[..i]) == Ok(lines)
    {
      assert skus[..i + 1][..i] == skus[..i];
      if skus[i] !in catalog {
        LinesForErr(catalog, items, skus, i + 1);
        return Err(ProductNotFound);
      }
      var product := catalog[skus[i]];
      if !Acceptable(merged[skus[i]], product.price) {
        LinesForErr(catalog, items, skus, i + 1);
        return Err(LineRejected);
      }
      lines := lines + [LineFor(product, merged[skus[i]])];
    }
    assert skus[..|skus|] == skus;
    result := Ok(lines);
  }

  lemma {:induction false} LinesForErr(catalog: Catalog, items: seq<Item>, skus: seq<Sku>, n: nat)
    requires n <= |skus| && LinesFor(catalog, items, skus[..n]).Err?
    ensures LinesFor(catalog, items, skus) == LinesFor(catalog, items, skus[..n])
  {
    if n < |skus| {
      var m := |skus| - 1;
      assert skus[..m][..n] == skus[..n];
      LinesForErr(catalog, items, skus[..m], n);
    } else {
      assert skus[..n] == skus;
    }
  }

  /** The first SKU that cannot be held decides the error: unknown, or with a quantity or price that no
      line may have. */
  lemma FirstBadSku(catalog: Catalog, items: seq<Item>, n: nat)
    requires var skus := FirstSeen(items);
             && n < |skus|
             && (forall i :: 0 <= i < n ==>
                   skus[i] in catalog && Quantity(items, skus[i]) > 0 && catalog[skus[i]].price >= 0)
             && !(skus[n] in catalog && Quantity(items, skus[n]) > 0 && catalog[skus[n]].price >= 0)
    ensures CartLines(catalog, items) == Err(if FirstSeen(items)[n] in catalog then LineRejected else ProductNotFound)
  {
    var skus := FirstSeen(items);
    assert forall i :: 0 <= i < n ==> skus[..n][i] == skus[i];
    LinesForMeans(catalog, items, skus[..n]);
    assert skus[..n + 1][..n] == skus[..n] && skus[..n + 1][n] == skus[n];
    LinesForErr(catalog, items, skus, n + 1);
  }

  /** Distinct SKUs name distinct inventory products. */
  ghost predicate Injective(catalog: Catalog) {
    forall a, b :: a in catalog && b in catalog && a != b ==> catalog[a].pid != catalog[b].pid
  }

  /** Lines that reached a session: something positive of every product named, at no negative price. */
  ghost predicate GoodLines(lines: seq<Line>) {
    lines != [] && Positive(HoldItems(lines)) && forall i :: 0 <= i < |lines| ==> lines[i].price >= 0
  }

  lemma {:induction false} FirstSeenDistinct(items: seq<Item>)
    ensures forall i, j :: 0 <= i < j < |FirstSeen(items)| ==> FirstSeen(items)[i] != FirstSeen(items)[j]
    ensures items != [] ==> FirstSeen(items) != []
  {
    if items != [] {
      FirstSeenDistinct(items[..|items| - 1]);
    }
  }

  lemma CartDistinct(catalog: Catalog, items: seq<Item>)
    requires CartLines(catalog, items).Ok? && Injective(catalog)
    ensures DistinctProducts(HoldItems(CartLines(catalog, items).value))
  {
    hide LinesFor, FirstSeen;
    var skus := FirstSeen(items);
    var lines := CartLines(catalog, items).value;
    LinesForMeans(catalog, items, skus);
    FirstSeenDistinct(items);
    forall i, j | 0 <= i < j < |lines| ensures HoldItems(lines)[i].pid != HoldItems(lines)[j].pid {
      assert skus[i] != skus[j];
    }
  }

  /** The hold request of an accepted cart: one line per SKU in first-seen order, carrying the
      per-SKU sum; over an injective catalog it reserves exactly the ordered quantities. */
  lemma CartRequest(catalog: Catalog, items: seq<Item>)
    requires items != [] && CartLines(catalog, items).Ok?
    ensures var lines := CartLines(catalog, items).value;
            && GoodLines(lines)
            && |lines| == |FirstSeen(items)|
            && (forall i :: 0 <= i < |lines| ==>
                  var sku := FirstSeen(items)[i];
                  && sku in catalog
                  && lines[i].quantity == Quantity(items, sku)
                  && HoldItems(lines)[i] == HoldItem(catalog[sku].pid, Quantity(items, sku)))
            && (Injective(catalog) ==>
                  forall p :: Level(Reserve(HoldItems(lines)), p) == Ordered(HoldItems(lines), p))
  {
    hide LinesFor, FirstSeen, Quantity, Reserve, Ordered;
    var skus := FirstSeen(items);
    var lines := CartLines(catalog, items).value;
    LinesForMeans(catalog, items, skus);
    FirstSeenDistinct(items);
    assert skus != [];
    if Injective(catalog) {
      CartDistinct(catalog, items);
      ReservesOrderedIffDistinct(HoldItems(lines));
    }
  }

  /** However a cart is split, each line and each item of the hold request asks for what the parts ask. */
  lemma CartAdds(catalog: Catalog, a: seq<Item>, b: seq<Item>)
    requires a + b != [] && CartLines(catalog, a + b).Ok?
    ensures var skus, lines := FirstSeen(a + b), CartLines(catalog, a + b).value;
            && |lines| == |skus| && |HoldItems(lines)| == |skus|
            && forall i :: 0 <= i < |skus| ==>
                 && lines[i].quantity == Quantity(a, skus[i]) + Quantity(b, skus[i])
                 && HoldItems(lines)[i].quantity == Quantity(a, skus[i]) + Quantity(b, skus[i])
  {
    hide CartLines, FirstSeen, Quantity, GoodLines;
    CartRequest(catalog, a + b);
    forall sku ensures Quantity(a + b, sku) == Quantity(a, sku) + Quantity(b, sku) {
      QuantityAdds(a, b, sku);
    }
  }

  // ----- The stock check -----------------------------------------------------------------------------

  /** The first line that asks for more than is available. */
  function FirstShort(lines: seq<Line>, levels: map<Pid, int>): Option<Line> {
    if lines == [] then None
    else if lines[0].quantity > Level(levels, lines[0].pid) then Some(lines[0])
    else FirstShort(lines[1..], levels)
  }

  method AssertSufficientStock(lines: seq<Line>, levels: map<Pid, int>) returns (short: Option<Line>)
    ensures short == FirstShort(lines, levels)
  {
    for i := 0 to |lines|
      invariant FirstShort(lines, levels) == FirstShort(lines[i..], levels)
    {
      var line := lines[i];
      assert lines[i..][1..] == lines[i + 1..];
      var available := if line.pid in levels then levels[line.pid] else 0;
      if line.quantity > available {
        return Some(line);
      }
    }
    short := None;
  }

  lemma {:induction false} FirstShortMeans(lines: seq<Line>, levels: map<Pid, int>)
    ensures FirstShort(lines, levels) == None <==> Covers(levels, HoldItems(lines))
  {
    var items := HoldItems(lines);
    if lines != [] {
      var rest := lines[1..];
      FirstShortMeans(rest, levels);
      assert forall i :: 0 <= i < |rest| ==> HoldItems(rest)[i] == items[i + 1];
      if Covers(levels, HoldItems(rest)) && FirstShort(lines, levels) == None {
        forall i | 0 <= i < |items| ensures items[i].quantity <= Level(levels, items[i].pid) {
          if i > 0 {
            assert HoldItems(rest)[i - 1] == items[i];
          }
        }
      }
      if Covers(levels, items) {
        assert items[0].quantity <= Level(levels, items[0].pid);
      }
    }
  }

  /** The line reported is the first that asks for more than there is. */
  lemma {:induction false} FirstShortIs(lines: seq<Line>, levels: map<Pid, int>, n: nat)
    requires n <= |lines|
    requires forall i :: 0 <= i < n ==>
               lines[i].quantity <= (if lines[i].pid in levels then levels[lines[i].pid] else 0)
    requires n < |lines| ==> lines[n].quantity > (if lines[n].pid in levels then levels[lines[n].pid] else 0)
    ensures FirstShort(lines, levels) == if n < |lines| then Some(lines[n]) else None
  {
    if n > 0 {
      FirstShortIs(lines[1..], levels, n - 1);
    }
  }

  lemma CoversIs(levels: map<Pid, int>, lines: seq<Line>)
    ensures Covers(levels, HoldItems(lines)) <==>
              forall i :: 0 <= i < |lines| ==>
                lines[i].quantity <= (if lines[i].pid in levels then levels[lines[i].pid] else 0)
  {
    if Covers(levels, HoldItems(lines)) {
      forall i | 0 <= i < |lines|
        ensures lines[i].quantity <= (if lines[i].pid in levels then levels[lines[i].pid] else 0)
      {
        assert HoldItems(lines)[i].quantity <= Level(levels, HoldItems(lines)[i].pid);
      }
    }
  }

  /** The check is exact: it stops exactly the requests that the service would refuse on the same
      inventory, unknown products included, and a refused request changes nothing there. */
  lemma StockCheckExact(s: Ihms, lines: seq<Line>, newId: HoldId, now: int)
    requires GoodLines(lines)
    ensures var (s', answer) := CreateHoldAt(s, HoldItems(lines), newId, now);
            && (answer.Made? <==>
                  forall i :: 0 <= i < |lines| ==>
                    lines[i].quantity <= (if lines[i].pid in s.inventory then s.inventory[lines[i].pid] else 0))
            && (FirstShort(lines, s.inventory).Some? <==> answer == Refused)
            && (FirstShort(lines, s.inventory).None? <==> answer.Made?)
            && (answer == Refused ==> s' == s)
  {
    hide CreateHoldAt, FirstShort, Covers;
    FirstShortMeans(lines, s.inventory);
    CoversIs(s.inventory, lines);
    CreatePositive(s, HoldItems(lines), newId, now);
  }
}
