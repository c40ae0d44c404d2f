/** What each command does to the tables, field by field, in terms of the rows before it alone. */
module Meaning {
  import opened Shop
  import opened Books
  import opened Stock

  /** The sum of a list of numbers. */
  function Added(xs: seq<int>): int {
    if xs == [] then 0 else xs[0] + Added(xs[1..])
  }

  lemma {:induction false} AddedJoin(xs: seq<int>, ys: seq<int>)
    ensures Added(xs + ys) == Added(xs) + Added(ys)
  {
    if xs == [] {
      assert xs + ys == ys;
    } else {
      assert (xs + ys)[1..] == xs[1..] + ys;
      AddedJoin(xs[1..], ys);
    }
  }

  lemma AddedOne(x: int)
    ensures Added([x]) == x
  {
    assert [x][1..] == [];
  }

  lemma AddedLast(xs: seq<int>)
    requires xs != []
    ensures Added(xs) == Added(xs[..|xs| - 1]) + xs[|xs| - 1]
  {
    assert xs == xs[..|xs| - 1] + [xs[|xs| - 1]];
    AddedJoin(xs[..|xs| - 1], [xs[|xs| - 1]]);
    AddedOne(xs[|xs| - 1]);
  }

  function Costs(items: seq<Item>): seq<int> {
    seq(|items|, i requires 0 <= i < |items| => items[i].quantity * items[i].itemCostPerUnit)
  }

  function QuantitiesOf(items: seq<Item>, product: int): seq<int> {
    seq(|items|, i requires 0 <= i < |items| => if items[i].productId == product then items[i].quantity else 0)
  }

  lemma {:induction false} CostIsAdded(items: seq<Item>)
    ensures OrderCost(items) == Added(Costs(items))
  {
    if items != [] {
      CostIsAdded(items[..|items| - 1]);
      AddedLast(Costs(items));
      assert Costs(items)[..|items| - 1] == Costs(items[..|items| - 1]);
    }
  }

  lemma {:induction false} OrderedIsAdded(items: seq<Item>, product: int)
    ensures Ordered(items, product) == Added(QuantitiesOf(items, product))
  {
    if items != [] {
      OrderedIsAdded(items[..|items| - 1], product);
      AddedLast(QuantitiesOf(items, product));
      assert QuantitiesOf(items, product)[..|items| - 1] == QuantitiesOf(items[..|items| - 1], product);
    }
  }

  // ---------------------------------------------------------------------------------------
  // When an order is accepted.

  ghost predicate UniqueProducts(ps: seq<Product>) {
    forall j, k :: 0 <= j < k < |ps| ==> ps[j].productId != ps[k].productId
  }

  /** With unique product ids: exactly when each ordered product is there and each line is for no more
      than its row has; all of it is allowed. */
  lemma AcceptedIff(items: seq<Item>, ps: seq<Product>)
    requires UniqueProducts(ps)
    ensures Accepts(items, ps) <==> forall i :: 0 <= i < |items| ==>
      FindProduct(ps, items[i].productId) < |ps| && items[i].quantity <= ps[FindProduct(ps, items[i].productId)].quantity
  {
    forall i | 0 <= i < |items|
      ensures AcceptsLine(items[i], ps)
         <==> FindProduct(ps, items[i].productId) < |ps| && items[i].quantity <= ps[FindProduct(ps, items[i].productId)].quantity
    {
      var k := FindProduct(ps, items[i].productId);
      if k < |ps| {
        assert forall j :: 0 <= j < |ps| && ps[j].productId == items[i].productId ==> j == k;
      }
    }
  }

  /** In any table: a row with the product is enough, and one with too little is too much. */
  lemma RefusedIff(items: seq<Item>, ps: seq<Product>)
    ensures !Accepts(items, ps) <==> exists i :: 0 <= i < |items| && NotOnShelf(items[i].productId, items[i].quantity, ps)
  {
    forall i | 0 <= i < |items| ensures !AcceptsLine(items[i], ps) <==> NotOnShelf(items[i].productId, items[i].quantity, ps) {
    }
  }

  ghost predicate NotOnShelf(product: int, quantity: int, ps: seq<Product>) {
    || (forall j :: 0 <= j < |ps| ==> ps[j].productId != product)
    || (exists j :: 0 <= j < |ps| && ps[j].productId == product && quantity > ps[j].quantity)
  }

  // ---------------------------------------------------------------------------------------
  // Orders.

  /** The buyer's name and address: none for buyer 0, unless there is one. */
  function ContactFor(bs: seq<Client>, id: int): Contact
    requires FindBuyer(bs, id) < |bs| || id == 0
  {
    if FindBuyer(bs, id) < |bs| then bs[FindBuyer(bs, id)].contact else Contact("", "", "", "", "", "")
  }

  /** An accepted order: the bill and each line as ordered, at quantity times price; and each product's
      first row loses what is ordered of it. */
  lemma OrderMeans(db: Db, id: int, items: seq<Item>, orderId: int)
    requires Accepts(items, db.products) && (FindBuyer(db.buyers, id) < |db.buyers| || id == 0)
    ensures var n, c := Apply(db, CompleteOrder(id, items, orderId)), ContactFor(db.buyers, id);
      && n.buyers == db.buyers
      && n.bills == db.bills + [Bill(orderId, id, c, Added(Costs(items)))]
      && |n.lines| == |db.lines| + |items| && n.lines[..|db.lines|] == db.lines
      && (forall i :: 0 <= i < |items| ==>
           n.lines[|db.lines| + i] == Line(orderId, items[i].productId, items[i].quantity, c, items[i].quantity * items[i].itemCostPerUnit))
      && |n.products| == |db.products|
      && (forall k :: 0 <= k < |db.products| ==> n.products[k] == AfterSale(db.products, items, k))
  {
    CostIsAdded(items);
    forall k | 0 <= k < |db.products| ensures Apply(db, CompleteOrder(id, items, orderId)).products[k] == AfterSale(db.products, items, k) {
      SellRows(db.products, items, k);
      OrderedIsAdded(items, db.products[k].productId);
    }
  }

  /** The row, less what the order wants if it is the first with its id. */
  function AfterSale(ps: seq<Product>, items: seq<Item>, k: nat): Product
    requires k < |ps|
  {
    var p := ps[k];
    if forall j :: 0 <= j < k ==> ps[j].productId != p.productId then
      Product(p.productId, p.productName, p.sellerId, p.quantity - Added(QuantitiesOf(items, p.productId)), p.price)
    else p
  }

  /** A refused order does nothing. */
  lemma RefusedMeans(db: Db, id: int, items: seq<Item>, orderId: int, i: nat)
    requires i < |items| && NotOnShelf(items[i].productId, items[i].quantity, db.products)
    ensures Apply(db, CompleteOrder(id, items, orderId)) == db
  {
    RefusedIff(items, db.products);
  }

  /** An order for all there is of one product is accepted, and leaves none. */
  lemma WholeStockSells(db: Db, id: int, k: nat, price: int, orderId: int)
    requires UniqueProducts(db.products) && k < |db.products| && FindBuyer(db.buyers, id) < |db.buyers|
    ensures var items := [Item(db.products[k].productId, db.products[k].quantity, price)];
      Accepts(items, db.products) && Apply(db, CompleteOrder(id, items, orderId)).products[k].quantity == 0
  {
    var p := db.products[k];
    var items := [Item(p.productId, p.quantity, price)];
    assert FindProduct(db.products, p.productId) == k;
    AcceptedIff(items, db.products);
    OrderMeans(db, id, items, orderId);
    AddedOne(p.quantity);
    assert QuantitiesOf(items, p.productId) == [p.quantity];
  }

  // ---------------------------------------------------------------------------------------
  // Edits of a buyer.

  /** The edits reach the buyer's row, the buyer's bills and the lines of those bills' orders, and nothing
      else. */
  ghost predicate EditReaches(db: Db, n: Db, id: int, e: Edit) {
    && n.products == db.products
    && |n.buyers| == |db.buyers| && |n.bills| == |db.bills| && |n.lines| == |db.lines|
    && (forall k :: 0 <= k < |db.buyers| ==>
         if k == FindBuyer(db.buyers, id) then
           && n.buyers[k].uuid == id && n.buyers[k].phoneNumber == db.buyers[k].phoneNumber
           && IsEdited(db.buyers[k].contact, n.buyers[k].contact, e)
         else n.buyers[k] == db.buyers[k])
    && (forall k :: 0 <= k < |db.bills| ==>
         if db.bills[k].customerId == id then
           && n.bills[k].orderId == db.bills[k].orderId && n.bills[k].customerId == id
           && n.bills[k].totalOrderCost == db.bills[k].totalOrderCost && IsEdited(db.bills[k].contact, n.bills[k].contact, e)
         else n.bills[k] == db.bills[k])
    && (forall k :: 0 <= k < |db.lines| ==>
         if exists b :: 0 <= b < |db.bills| && db.bills[b].customerId == id && db.bills[b].orderId == db.lines[k].orderId then
           && n.lines[k].orderId == db.lines[k].orderId && n.lines[k].productId == db.lines[k].productId
           && n.lines[k].quantityPurchased == db.lines[k].quantityPurchased && n.lines[k].totalPrice == db.lines[k].totalPrice
           && IsEdited(db.lines[k].contact, n.lines[k].contact, e)
         else n.lines[k] == db.lines[k])
  }

  /** What is edited is as given, and the rest as before. */
  ghost predicate IsEdited(was: Contact, now: Contact, e: Edit) {
    match e
    case Name(first, last) =>
      && now.firstName == first && now.lastName == last
      && now.streetAddress == was.streetAddress && now.city == was.city && now.state == was.state && now.zipCode == was.zipCode
    case Address(street, city, state, zip) =>
      && now.firstName == was.firstName && now.lastName == was.lastName
      && now.streetAddress == street && now.city == city && now.state == state && now.zipCode == zip
  }

  lemma EditMeans(db: Db, id: int, e: Edit)
    ensures EditReaches(db, Apply(db, EditContact(id, e)), id, e)
  {
  }

  // ---------------------------------------------------------------------------------------
  // The other commands.

  lemma NumberEditMeans(db: Db, id: int, phone: string)
    ensures var n := Apply(db, EditNumber(id, phone));
      && n == db.(buyers := n.buyers) && |n.buyers| == |db.buyers|
      && (forall k :: 0 <= k < |db.buyers| ==>
           n.buyers[k] == if k == FindBuyer(db.buyers, id) then Client(id, db.buyers[k].contact, phone) else db.buyers[k])
  {
  }

  /** The new rows as given; a registration stores no phone number. */
  lemma NewRowsMean(db: Db, uuid: Uid, c: Contact, p: Product)
    ensures Apply(db, RegisterBuyer(uuid, c)) == Db(db.buyers + [Client(uuid, c, "")], db.products, db.bills, db.lines)
    ensures Apply(db, AddProduct(p)) == Db(db.buyers, db.products + [p], db.bills, db.lines)
  {
  }

  /** The owner's change is made, to the first row with the id, and nobody else's. */
  lemma QuantityMeans(db: Db, seller: int, product: int, quantity: int)
    ensures var n, k := Apply(db, ModifyQuantity(seller, product, quantity)), FindProduct(db.products, product);
      && n == db.(products := n.products) && |n.products| == |db.products|
      && (forall j :: 0 <= j < |db.products| && j != k ==> n.products[j] == db.products[j])
      && (k < |db.products| ==>
           var p := db.products[k];
           n.products[k] == if p.sellerId == seller then Product(product, p.productName, seller, quantity, p.price) else p)
  {
  }

  lemma PriceMeans(db: Db, seller: int, product: int, price: int)
    ensures var n, k := Apply(db, ModifyPrice(seller, product, price)), FindProduct(db.products, product);
      && n == db.(products := n.products) && |n.products| == |db.products|
      && (forall j :: 0 <= j < |db.products| && j != k ==> n.products[j] == db.products[j])
      && (k < |db.products| ==>
           var p := db.products[k];
           n.products[k] == if p.sellerId == seller then Product(product, p.productName, seller, p.quantity, price) else p)
  {
  }

  /** What is on the shelf after the owner's change. */
  lemma OwnerSetsStock(db: Db, seller: int, product: int, quantity: int)
    requires FindProduct(db.products, product) < |db.products|
    requires db.products[FindProduct(db.products, product)].sellerId == seller
    ensures Books.Stock(Apply(db, ModifyQuantity(seller, product, quantity)).products, product) == quantity
  {
    var n, k := Apply(db, ModifyQuantity(seller, product, quantity)), FindProduct(db.products, product);
    QuantityMeans(db, seller, product, quantity);
    assert forall j :: 0 <= j < |db.products| ==> n.products[j].productId == db.products[j].productId;
    SameIds(db.products, n.products, ProductId, product);
  }

  /** A return: the order's bill loses the price of the order's first line, every line of the product goes,
      and the rest is as before. */
  lemma ReturnMeans(db: Db, orderId: int, product: int)
    requires FindLine(db.lines, orderId) < |db.lines| && FindBill(db.bills, orderId) < |db.bills|
    ensures var n, b := Apply(db, ReturnProduct(orderId, product)), FindBill(db.bills, orderId);
      && n.buyers == db.buyers && n.products == db.products && |n.bills| == |db.bills|
      && (forall j :: 0 <= j < |db.bills| && j != b ==> n.bills[j] == db.bills[j])
      && n.bills[b] == Bill(orderId, db.bills[b].customerId, db.bills[b].contact,
                            db.bills[b].totalOrderCost - db.lines[FindLine(db.lines, orderId)].totalPrice)
      && (forall l :: l in n.lines <==> l in db.lines && l.productId != product)
      && n.lines == KeepOthers(db.lines, (l: Line) => l.productId, product)
  {
    KeepOthersMembers(db.lines, product);
    SameCompaction(db.lines, LineProduct, (l: Line) => l.productId, product);
  }

  /** A return of order 0, which has no rows: only the lines of the product go. */
  lemma ReturnOfNothingMeans(db: Db, product: int)
    requires FindLine(db.lines, 0) == |db.lines| && FindBill(db.bills, 0) == |db.bills|
    ensures Apply(db, ReturnProduct(0, product)) == db.(lines := KeepOthers(db.lines, (l: Line) => l.productId, product))
  {
    SameCompaction(db.lines, LineProduct, (l: Line) => l.productId, product);
  }

  lemma {:induction false} SameCompaction(ls: seq<Line>, f: Line -> int, g: Line -> int, product: int)
    requires forall l :: f(l) == g(l)
    ensures KeepOthers(ls, f, product) == KeepOthers(ls, g, product)
  {
    if ls != [] { SameCompaction(ls[..|ls| - 1], f, g, product); }
  }
}
