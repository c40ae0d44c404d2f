/** Stock: what is sold leaves the shelf, and exactly when an accepted order oversells. */
module Stock {
  import opened Shop
  import opened Books

  /** What the nested loops leave in each row. */
  lemma {:induction false} SellRows(ps: seq<Product>, items: seq<Item>, k: nat)
    requires k < |ps|
    ensures Sell(ps, items)[k]
         == ps[k].(quantity := ps[k].quantity - if FindProduct(ps, ps[k].productId) == k then Ordered(items, ps[k].productId) else 0)
  {
    if items != [] {
      var before := items[..|items| - 1];
      forall j | 0 <= j < |ps| { SellRows(ps, before, j); }
      SameIds(ps, Sell(ps, before), ProductId, items[|items| - 1].productId);
    }
  }

  lemma SoldLeavesStock(ps: seq<Product>, items: seq<Item>, p: int)
    requires Accepts(items, ps)
    ensures Stock(Sell(ps, items), p) == Stock(ps, p) - Ordered(items, p)
  {
    forall k | 0 <= k < |ps| { SellRows(ps, items, k); }
    SameIds(ps, Sell(ps, items), ProductId, p);
    if FindProduct(ps, p) == |ps| { NotOrdered(ps, items, p); }
  }

  lemma {:induction false} NotOrdered(ps: seq<Product>, items: seq<Item>, p: int)
    requires Accepts(items, ps) && FindProduct(ps, p) == |ps|
    ensures Ordered(items, p) == 0
  {
    if items != [] {
      assert AcceptsLine(items[|items| - 1], ps);
      NotOrdered(ps, items[..|items| - 1], p);
    }
  }

  /** The commands that neither restock, add a product nor take a return. */
  predicate SellsOnly(c: Cmd) {
    !c.AddProduct? && !c.ModifyQuantity? && !c.ReturnProduct?
  }

  lemma ApplyConservesStock(db: Db, c: Cmd, p: int)
    requires SellsOnly(c)
    ensures Stock(Apply(db, c).products, p) + Sold(Apply(db, c).lines, p) == Stock(db.products, p) + Sold(db.lines, p)
  {
    match c
    case CompleteOrder(id, items, orderId) =>
      if Apply(db, c) != db {
        SoldLeavesStock(db.products, items, p);
        NewLinesTotals(db.lines, orderId, FoundContact(db.buyers, id).value, items, 0, p);
      }
    case EditContact(id, e) => EditKeepsTotals(db.lines, db.bills, id, e, 0, p);
    case ModifyPrice(s, product, v) => SameIds(db.products, SetPrice(db.products, s, product, v), ProductId, p);
    case _ =>
  }

  /** Conservation over whole runs: on the shelf plus sold never changes, for every product. */
  lemma {:induction false} RunConservesStock(db: Db, cs: seq<Cmd>, p: int)
    requires forall i :: 0 <= i < |cs| ==> SellsOnly(cs[i])
    ensures var n := Replay(db, cs);
      Stock(n.products, p) + Sold(n.lines, p) == Stock(db.products, p) + Sold(db.lines, p)
  {
    if cs != [] {
      RunConservesStock(db, cs[..|cs| - 1], p);
      ApplyConservesStock(Replay(db, cs[..|cs| - 1]), cs[|cs| - 1], p);
    }
  }

  ghost predicate NoDebt(ps: seq<Product>) {
    forall k :: 0 <= k < |ps| ==> ps[k].quantity >= 0
  }

  /** Selling leaves no negative stock exactly when each product's summed quantity fits. */
  lemma NoOversellingIff(ps: seq<Product>, items: seq<Item>)
    requires NoDebt(ps) && Accepts(items, ps)
    ensures NoDebt(Sell(ps, items)) <==> forall p :: Ordered(items, p) <= Stock(ps, p)
  {
    forall k | 0 <= k < |ps| { SellRows(ps, items, k); }
    forall p ensures FindProduct(ps, p) == |ps| ==> Ordered(items, p) == 0 {
      if FindProduct(ps, p) == |ps| { NotOrdered(ps, items, p); }
    }
    if forall p :: Ordered(items, p) <= Stock(ps, p) {
      forall k | 0 <= k < |ps| ensures Sell(ps, items)[k].quantity >= 0 {
        assert Ordered(items, ps[k].productId) <= Stock(ps, ps[k].productId);
      }
    }
    if NoDebt(Sell(ps, items)) {
      forall p ensures Ordered(items, p) <= Stock(ps, p) {
        var k := FindProduct(ps, p);
        if k < |ps| { assert Sell(ps, items)[k].quantity >= 0; }
      }
    }
  }

  lemma {:induction false} DistinctOrdered(ps: seq<Product>, items: seq<Item>, p: int)
    requires NoDebt(ps) && Accepts(items, ps)
    requires forall i, j :: 0 <= i < j < |items| ==> items[i].productId != items[j].productId
    ensures Ordered(items, p) <= Stock(ps, p)
    ensures (forall i :: 0 <= i < |items| ==> items[i].productId != p) ==> Ordered(items, p) == 0
  {
    if items != [] {
      var n := |items| - 1;
      assert AcceptsLine(items[n], ps);
      DistinctOrdered(ps, items[..n], p);
    }
  }

  /** The per-line check suffices when the order names each product once. */
  lemma DistinctOrderNeverOversells(ps: seq<Product>, items: seq<Item>)
    requires NoDebt(ps) && Accepts(items, ps)
    requires forall i, j :: 0 <= i < j < |items| ==> items[i].productId != items[j].productId
    ensures NoDebt(Sell(ps, items))
  {
    forall p { DistinctOrdered(ps, items, p); }
    NoOversellingIff(ps, items);
  }

  /** It does not when a product is named twice: 6 and 6 of a stock of 10. */
  lemma RepeatedProductOversells() returns (ps: seq<Product>, items: seq<Item>)
    ensures NoDebt(ps) && Accepts(items, ps) && !NoDebt(Sell(ps, items))
  {
    ps := [Product(2001, "Tea", 4001, 10, 3)];
    var item := Item(2001, 6, 3);
    items := [item, item];
    assert ps[0].productId == 2001;
    var none: seq<Item> := [];
    assert items[..1] == [item] && [item][..0] == none && Ordered(none, 2001) == 0;
    assert Ordered([item], 2001) == 6 && Ordered(items, 2001) == 12;
    NoOversellingIff(ps, items);
    assert Stock(ps, 2001) == 10;
  }
}
