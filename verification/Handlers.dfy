/** The table algorithms over sentinel-terminated arrays, and the command handlers over the files. */
module Handlers {
  import opened Shop
  import Meaning

  const MAX_ROWS: nat := 3000

  const ZERO_CLIENT := Client(0, NO_CONTACT, "")
  const ZERO_PRODUCT := Product(0, "", 0, 0, 0)
  const ZERO_BILL := Bill(0, 0, NO_CONTACT, 0)
  const ZERO_LINE := Line(0, 0, 0, NO_CONTACT, 0)
  const ZERO_ITEM := Item(0, 0, 0)

  /** The array holds the rows, whose ids are not zero, followed by all-zero rows, at least one. */
  ghost predicate Holds<T>(a: seq<T>, rows: seq<T>, id: T -> int, zero: T) {
    && |rows| < |a|
    && (forall k :: 0 <= k < |rows| ==> a[k] == rows[k] && id(rows[k]) != 0)
    && (forall k :: |rows| <= k < |a| ==> a[k] == zero)
    && id(zero) == 0
  }

  // ---------------------------------------------------------------------------------------
  // Orders.

  method ValidateBuyerOrder(orderList: array<Item>, pList: array<Product>, ghost items: seq<Item>, ghost ps: seq<Product>)
    returns (ok: bool)
    requires Holds(orderList[..], items, ItemId, ZERO_ITEM) && Holds(pList[..], ps, ProductId, ZERO_PRODUCT)
    ensures ok <==> Accepts(items, ps)
    ensures !ok <==> exists i :: 0 <= i < |items| && Meaning.NotOnShelf(items[i].productId, items[i].quantity, ps)
  {
    Meaning.RefusedIff(items, ps);
    var idFound := false;
    var rowsInOrderList, rowsInProductList := 0, 0;
    while pList[rowsInProductList].productId != 0
      invariant rowsInProductList <= |ps|
      decreases pList.Length - rowsInProductList
    {
      rowsInProductList := rowsInProductList + 1;
    }
    while orderList[rowsInOrderList].productId != 0
      invariant rowsInOrderList <= |items|
      decreases orderList.Length - rowsInOrderList
    {
      rowsInOrderList := rowsInOrderList + 1;
    }
    // both loops include the sentinel row, which matches the other table's sentinel
    for i := 0 to rowsInOrderList + 1
      invariant !idFound
      invariant forall k :: 0 <= k < i && k < |items| ==> AcceptsLine(items[k], ps)
    {
      for j := 0 to rowsInProductList + 1
        invariant idFound <==> exists k :: 0 <= k < j && pList[k].productId == orderList[i].productId
        invariant forall k :: 0 <= k < j && pList[k].productId == orderList[i].productId ==> orderList[i].quantity <= pList[k].quantity
      {
        if orderList[i].productId == pList[j].productId {
          idFound := true;
          if orderList[i].quantity > pList[j].quantity {
            assert !AcceptsLine(items[i], ps);
            return false;
          }
        }
      }
      if !idFound {
        assert pList[|ps|] == ZERO_PRODUCT;
        assert !AcceptsLine(items[i], ps);
        return false;
      }
      idFound := false;
    }
    return true;
  }

  /** The inner search has no sentinel test: it ends because the product is in the table. */
  method FindOrderedProduct(pList: array<Product>, productId: int, ghost ps: seq<Product>) returns (rowCounter: nat)
    requires Holds(pList[..], ps, ProductId, ZERO_PRODUCT) && FindProduct(ps, productId) < |ps|
    ensures rowCounter == FindProduct(ps, productId)
  {
    rowCounter := 0;
    while productId != pList[rowCounter].productId
      invariant rowCounter <= FindProduct(ps, productId)
      decreases pList.Length - rowCounter
    {
      rowCounter := rowCounter + 1;
    }
  }

  method TakeStock(pList: array<Product>, row: nat, item: Item, ghost ps: seq<Product>)
    requires Holds(pList[..], ps, ProductId, ZERO_PRODUCT) && row == FindProduct(ps, item.productId) < |ps|
    modifies pList
    ensures Holds(pList[..], SellOne(ps, item), ProductId, ZERO_PRODUCT)
  {
    pList[row] := pList[row].(quantity := pList[row].quantity - item.quantity);
    ghost var sold := SellOne(ps, item);
    assert sold == ps[row := ps[row].(quantity := ps[row].quantity - item.quantity)];
    assert forall k :: 0 <= k < |ps| ==> pList[..][k] == sold[k];
  }

  /** One turn of the loop over the order: the item's product loses its quantity. */
  method TakeOrdered(pList: array<Product>, item: Item, ghost ps: seq<Product>, ghost items: seq<Item>, ghost i: nat)
    requires Accepts(items, ps) && i < |items| && item == items[i]
    requires Holds(pList[..], Sell(ps, items[..i]), ProductId, ZERO_PRODUCT)
    modifies pList
    ensures Holds(pList[..], Sell(ps, items[..i + 1]), ProductId, ZERO_PRODUCT)
  {
    ghost var now := Sell(ps, items[..i]);
    AcceptedIsThere(ps, items, i);
    var rowCounter := FindOrderedProduct(pList, item.productId, now);
    TakeStock(pList, rowCounter, item, now);
    assert items[..i + 1][..i] == items[..i] && Sell(ps, items[..i + 1]) == SellOne(now, items[i]);
  }

  method WriteNewProductQuantityFromOrder(orderList: array<Item>, pList: array<Product>, ghost items: seq<Item>, ghost ps: seq<Product>)
    requires Holds(orderList[..], items, ItemId, ZERO_ITEM) && Holds(pList[..], ps, ProductId, ZERO_PRODUCT)
    requires Accepts(items, ps)
    modifies pList
    ensures Holds(pList[..], Sell(ps, items), ProductId, ZERO_PRODUCT)
  {
    var rowsInOrderList := 0;
    while orderList[rowsInOrderList].productId != 0
      invariant rowsInOrderList <= |items|
      decreases orderList.Length - rowsInOrderList
    {
      rowsInOrderList := rowsInOrderList + 1;
    }
    assert items[..0] == [];
    for i := 0 to rowsInOrderList
      invariant Holds(pList[..], Sell(ps, items[..i]), ProductId, ZERO_PRODUCT)
    {
      TakeOrdered(pList, orderList[i], ps, items, i);
    }
    assert items[..|items|] == items;
  }

  lemma {:induction false} AcceptedIsThere(ps: seq<Product>, items: seq<Item>, i: nat)
    requires Accepts(items, ps) && i < |items|
    ensures FindProduct(Sell(ps, items[..i]), items[i].productId) < |ps|
  {
    SellKeepsIds(ps, items[..i]);
    assert AcceptsLine(items[i], ps);
    var j :| 0 <= j < |ps| && ps[j].productId == items[i].productId;
    assert Sell(ps, items[..i])[j].productId == items[i].productId;
  }

  lemma {:induction false} SellKeepsIds(ps: seq<Product>, items: seq<Item>)
    ensures forall k :: 0 <= k < |ps| ==> Sell(ps, items)[k].productId == ps[k].productId
  {
    if items != [] { SellKeepsIds(ps, items[..|items| - 1]); }
  }

  method WriteOrderToBillingInfo(buyerData: Client, orderList: array<Item>, billingList: array<Bill>, orderId: int,
                                 ghost items: seq<Item>, ghost bills: seq<Bill>)
    returns (id: int)
    requires Holds(orderList[..], items, ItemId, ZERO_ITEM) && Holds(billingList[..], bills, BillId, ZERO_BILL)
    requires |bills| + 1 < billingList.Length && orderId != 0
    modifies billingList
    ensures id == orderId
    ensures Holds(billingList[..], bills + [Bill(orderId, buyerData.uuid, buyerData.contact, OrderCost(items))], BillId, ZERO_BILL)
  {
    var rowToWriteRecord, totalOrderCost, productListRow := 0, 0, 0;
    while billingList[rowToWriteRecord].orderId != 0
      invariant rowToWriteRecord <= |bills|
      decreases billingList.Length - rowToWriteRecord
    {
      rowToWriteRecord := rowToWriteRecord + 1;
    }
    while orderList[productListRow].productId != 0
      invariant productListRow <= |items| && totalOrderCost == OrderCost(items[..productListRow])
      decreases orderList.Length - productListRow
    {
      totalOrderCost := totalOrderCost + orderList[productListRow].quantity * orderList[productListRow].itemCostPerUnit;
      assert items[..productListRow + 1][..productListRow] == items[..productListRow];
      productListRow := productListRow + 1;
    }
    assert items[..productListRow] == items;
    billingList[rowToWriteRecord] := Bill(orderId, buyerData.uuid, buyerData.contact, totalOrderCost);
    return billingList[rowToWriteRecord].orderId;
  }

  method WriteOrderToCustomerOrder(orderId: int, buyerData: Client, orderList: array<Item>, customerOrders: array<Line>,
                                   ghost items: seq<Item>, ghost lines: seq<Line>)
    requires Holds(orderList[..], items, ItemId, ZERO_ITEM) && Holds(customerOrders[..], lines, LineId, ZERO_LINE)
    requires |lines| + |items| < customerOrders.Length && orderId != 0
    modifies customerOrders
    ensures Holds(customerOrders[..], lines + NewLines(orderId, buyerData.contact, items), LineId, ZERO_LINE)
    ensures forall i :: 0 <= i < |items| ==>
      customerOrders[|lines| + i] == Line(orderId, items[i].productId, items[i].quantity, buyerData.contact,
                                          items[i].quantity * items[i].itemCostPerUnit)
  {
    var lastRecordRow, rowsInOrderList := 0, 0;
    while customerOrders[lastRecordRow].orderId != 0
      invariant lastRecordRow <= |lines|
      decreases customerOrders.Length - lastRecordRow
    {
      lastRecordRow := lastRecordRow + 1;
    }
    while orderList[rowsInOrderList].productId != 0
      invariant rowsInOrderList <= |items|
      decreases orderList.Length - rowsInOrderList
    {
      rowsInOrderList := rowsInOrderList + 1;
    }
    for i := 0 to rowsInOrderList
      invariant lastRecordRow == |lines| + i
      invariant Holds(customerOrders[..], lines + NewLines(orderId, buyerData.contact, items[..i]), LineId, ZERO_LINE)
    {
      customerOrders[lastRecordRow] := Line(orderId, orderList[i].productId, orderList[i].quantity, buyerData.contact,
                                            orderList[i].quantity * orderList[i].itemCostPerUnit);
      lastRecordRow := lastRecordRow + 1;
    }
    assert items[..|items|] == items;
    ghost var all := lines + NewLines(orderId, buyerData.contact, items);
    assert forall i :: 0 <= i < |items| ==> all[|lines| + i] == LineOf(orderId, buyerData.contact, items[i]);
  }

  /** A search with no test for the sentinel ends at a row with the id, or for id 0 at the sentinel. */
  predicate Ends(found: nat, rows: nat, id: int) {
    found < rows || id == 0
  }

  method FindBuyerInClientInfo(buyerId: int, buyerList: array<Client>, ghost buyers: seq<Client>) returns (row: nat)
    requires Holds(buyerList[..], buyers, ClientId, ZERO_CLIENT) && Ends(FindBuyer(buyers, buyerId), |buyers|, buyerId)
    ensures row == FindBuyer(buyers, buyerId)
  {
    row := 0;
    while buyerId != buyerList[row].uuid
      invariant row <= FindBuyer(buyers, buyerId)
      decreases buyerList.Length - row
    {
      row := row + 1;
    }
  }

  // ---------------------------------------------------------------------------------------
  // Edits of a buyer's name or address.

  /** Edit the buyer's bills and collect their order numbers. */
  method EditBillingRows(billingInfo: array<Bill>, id: int, e: Edit, buyerOrderNums: array<int>, ghost bills: seq<Bill>)
    returns (orderCount: nat)
    requires Holds(billingInfo[..], bills, BillId, ZERO_BILL) && |bills| <= buyerOrderNums.Length
    modifies billingInfo, buyerOrderNums
    ensures Holds(billingInfo[..], EditBills(bills, id, e), BillId, ZERO_BILL)
    ensures orderCount <= buyerOrderNums.Length
    ensures forall o :: o in buyerOrderNums[..orderCount] <==> IsOrderOf(bills, id, o)
  {
    orderCount := 0;
    var rowCount := 0;
    while billingInfo[rowCount].orderId != 0
      invariant rowCount <= |bills| && orderCount <= rowCount
      invariant forall k :: 0 <= k < rowCount ==> billingInfo[k] == EditBills(bills, id, e)[k]
      invariant forall k :: rowCount <= k < |bills| ==> billingInfo[k] == bills[k]
      invariant forall k :: |bills| <= k < billingInfo.Length ==> billingInfo[k] == ZERO_BILL
      invariant forall o :: o in buyerOrderNums[..orderCount] <==> IsOrderOf(bills[..rowCount], id, o)
      decreases billingInfo.Length - rowCount
    {
      ghost var nums := buyerOrderNums[..orderCount];
      NextOrderOf(bills, id, rowCount);
      if billingInfo[rowCount].customerId == id {
        buyerOrderNums[orderCount] := billingInfo[rowCount].orderId;
        orderCount := orderCount + 1;
        billingInfo[rowCount] := billingInfo[rowCount].(contact := Edited(billingInfo[rowCount].contact, e));
        assert buyerOrderNums[..orderCount] == nums + [bills[rowCount].orderId];
      }
      rowCount := rowCount + 1;
    }
    assert bills[..rowCount] == bills;
  }

  lemma NextOrderOf(bills: seq<Bill>, id: int, n: nat)
    requires n < |bills|
    ensures forall o ::
      IsOrderOf(bills[..n + 1], id, o) <==> IsOrderOf(bills[..n], id, o) || (bills[n].customerId == id && bills[n].orderId == o)
  {
  }

  /** The row after the collected orders up to `i` have been visited. */
  function EditedFor(l: Line, nums: seq<int>, e: Edit): Line {
    if l.orderId in nums then l.(contact := Edited(l.contact, e)) else l
  }

  method EditOrderRows(customerOrderInfo: array<Line>, buyerOrderNums: array<int>, orderCount: nat, e: Edit,
                       ghost lines: seq<Line>, ghost bills: seq<Bill>, ghost id: int)
    requires Holds(customerOrderInfo[..], lines, LineId, ZERO_LINE) && orderCount <= buyerOrderNums.Length
    requires forall o :: o in buyerOrderNums[..orderCount] <==> IsOrderOf(bills, id, o)
    modifies customerOrderInfo
    ensures Holds(customerOrderInfo[..], EditLines(lines, bills, id, e), LineId, ZERO_LINE)
  {
    ghost var nums := buyerOrderNums[..];
    for i := 0 to orderCount
      invariant nums == buyerOrderNums[..]
      invariant forall k :: 0 <= k < |lines| ==> customerOrderInfo[k] == EditedFor(lines[k], nums[..i], e)
      invariant forall k :: |lines| <= k < customerOrderInfo.Length ==> customerOrderInfo[k] == ZERO_LINE
    {
      assert nums[..i + 1] == nums[..i] + [nums[i]];
      var rowCount := 0;
      while customerOrderInfo[rowCount].orderId != 0
        invariant rowCount <= |lines| && nums == buyerOrderNums[..]
        invariant forall k :: 0 <= k < |lines| ==> customerOrderInfo[k] == EditedFor(lines[k], if k < rowCount then nums[..i + 1] else nums[..i], e)
        invariant forall k :: |lines| <= k < customerOrderInfo.Length ==> customerOrderInfo[k] == ZERO_LINE
        decreases customerOrderInfo.Length - rowCount
      {
        if customerOrderInfo[rowCount].orderId == buyerOrderNums[i] {
          customerOrderInfo[rowCount] := customerOrderInfo[rowCount].(contact := Edited(customerOrderInfo[rowCount].contact, e));
        }
        rowCount := rowCount + 1;
      }
    }
    assert nums[..orderCount] == buyerOrderNums[..orderCount];
  }

  // ---------------------------------------------------------------------------------------
  // Compaction.

  /** Copy the rows of other products, closing the gaps: the loop of `deleteProduct` and of
      `buyerModifiesOrder`. The trailing index never passes the read index. */
  method CopyOthers<T>(table: array<T>, modified: array<T>, product: int, productOf: T -> int,
                       ghost rows: seq<T>, ghost zero: T, ghost id: T -> int)
    requires table != modified && table.Length == modified.Length
    requires Holds(table[..], rows, productOf, zero) && Holds(table[..], rows, id, zero)
    requires forall k :: 0 <= k < modified.Length ==> modified[k] == zero
    modifies modified
    ensures Holds(modified[..], KeepOthers(rows, productOf, product), id, zero)
  {
    var rowCount, rowCountTrailing := 0, 0;
    ghost var kept := [];
    while productOf(table[rowCount]) != 0
      invariant 0 <= rowCountTrailing <= rowCount <= |rows|
      invariant kept == KeepOthers(rows[..rowCount], productOf, product) && |kept| == rowCountTrailing
      invariant forall k :: 0 <= k < |kept| ==> modified[k] == kept[k] && id(kept[k]) != 0
      invariant forall k :: rowCountTrailing <= k < modified.Length ==> modified[k] == zero
      decreases table.Length - rowCount
    {
      assert rows[..rowCount + 1][..rowCount] == rows[..rowCount];
      if productOf(table[rowCount]) != product {
        modified[rowCountTrailing] := table[rowCount];
        kept := kept + [table[rowCount]];
      } else {
        rowCountTrailing := rowCountTrailing - 1;
      }
      rowCount := rowCount + 1;
      rowCountTrailing := rowCountTrailing + 1;
    }
    assert rows[..|rows|] == rows;
  }

  /** The places of the rows that compaction keeps. */
  function KeptPlaces<T>(rows: seq<T>, productOf: T -> int, product: int): (places: seq<nat>)
    ensures forall k :: 0 <= k < |places| ==> places[k] < |rows|
  {
    if rows == [] then []
    else
      var n := |rows| - 1;
      KeptPlaces(rows[..n], productOf, product) + if productOf(rows[n]) != product then [n] else []
  }

  /** Compaction keeps the rows of other products, in their old order. */
  lemma {:induction false} KeptInOrder<T>(rows: seq<T>, productOf: T -> int, product: int)
    ensures var places := KeptPlaces(rows, productOf, product);
      && |places| == |KeepOthers(rows, productOf, product)|
      && (forall k :: 0 <= k < |places| ==> KeepOthers(rows, productOf, product)[k] == rows[places[k]])
      && (forall j, k :: 0 <= j < k < |places| ==> places[j] < places[k])
  {
    if rows != [] {
      var n := |rows| - 1;
      KeptInOrder(rows[..n], productOf, product);
      var before := KeptPlaces(rows[..n], productOf, product);
      assert forall k :: 0 <= k < |before| ==> rows[..n][before[k]] == rows[before[k]];
    }
  }

  /** And all of them. */
  lemma {:induction false} KeepsAllOthers<T>(rows: seq<T>, productOf: T -> int, product: int, i: nat)
    requires i < |rows|
    ensures i in KeptPlaces(rows, productOf, product) <==> productOf(rows[i]) != product
  {
    if i < |rows| - 1 { KeepsAllOthers(rows[..|rows| - 1], productOf, product, i); }
  }

  /** The copy of a file that a handler works on. */
  method LoadTable<T>(rows: seq<T>, ghost id: T -> int, zero: T) returns (table: array<T>)
    requires |rows| < MAX_ROWS && id(zero) == 0 && forall k :: 0 <= k < |rows| ==> id(rows[k]) != 0
    ensures fresh(table) && table.Length == MAX_ROWS && Holds(table[..], rows, id, zero)
  {
    table := new T[MAX_ROWS](i => zero);
    for rowCount := 0 to |rows|
      invariant forall k :: 0 <= k < rowCount ==> table[k] == rows[k]
      invariant forall k :: rowCount <= k < MAX_ROWS ==> table[k] == zero
    {
      table[rowCount] := rows[rowCount];
    }
  }

  /** The rows, whose ids are not zero, come first, and the row after them has id zero. */
  ghost predicate Starts<T>(a: seq<T>, rows: seq<T>, id: T -> int) {
    |rows| < |a| && id(a[|rows|]) == 0 && forall k :: 0 <= k < |rows| ==> a[k] == rows[k] && id(rows[k]) != 0
  }

  /** The rows up to the first with id zero. */
  method StoreTable<T>(table: array<T>, id: T -> int, ghost rows: seq<T>) returns (file: seq<T>)
    requires Starts(table[..], rows, id)
    ensures file == rows
  {
    file := [];
    while id(table[|file|]) != 0
      invariant |file| <= |rows| && file == rows[..|file|]
      decreases table.Length - |file|
    {
      file := file + [table[|file|]];
    }
  }

  ghost predicate Keyed(db: Db) {
    && |db.buyers| < MAX_ROWS && |db.products| < MAX_ROWS && |db.bills| < MAX_ROWS && |db.lines| < MAX_ROWS
    && (forall k :: 0 <= k < |db.buyers| ==> db.buyers[k].uuid != 0)
    && (forall k :: 0 <= k < |db.products| ==> db.products[k].productId != 0)
    && (forall k :: 0 <= k < |db.bills| ==> db.bills[k].orderId != 0)
    && (forall k :: 0 <= k < |db.lines| ==> db.lines[k].orderId != 0 && db.lines[k].productId != 0)
  }

  lemma OrderKeepsKeys(db: Db, c: Cmd)
    requires Keyed(db) && c.CompleteOrder? && c.orderId != 0 && forall k :: 0 <= k < |c.items| ==> c.items[k].productId != 0
    requires |db.bills| + 1 < MAX_ROWS && |db.lines| + |c.items| < MAX_ROWS
    ensures Keyed(Apply(db, c))
  {
    SellKeepsIds(db.products, c.items);
  }

  lemma ReturnKeepsKeys(db: Db, c: Cmd)
    requires Keyed(db) && c.ReturnProduct?
    ensures Keyed(Apply(db, c))
  {
    KeptRows(db.lines, LineProduct, c.productId);
    assert forall l :: l in db.lines ==> l.orderId != 0 && l.productId != 0;
  }

  /** The seller in the row where the search for a product stops: 0 when that is the sentinel row. */
  function SellerAt(ps: seq<Product>, product: int): int {
    var k := FindProduct(ps, product);
    if k < |ps| then ps[k].sellerId else 0
  }

  /** The files and the command handlers of one server. Ids are never zero, and every table leaves
      room for its sentinel row. */
  class DataServer {
    var buyers: seq<Client>
    var products: seq<Product>
    var bills: seq<Bill>
    var lines: seq<Line>

    constructor (db: Db)
      ensures Files() == db
    {
      buyers, products, bills, lines := db.buyers, db.products, db.bills, db.lines;
    }

    function Files(): Db
      reads this
    {
      Db(buyers, products, bills, lines)
    }

    ghost predicate Valid()
      reads this
    {
      Keyed(Files())
    }

    method PostProducts(orderList: array<Item>, productList: array<Product>, ghost items: seq<Item>)
      requires Holds(orderList[..], items, ItemId, ZERO_ITEM) && Holds(productList[..], products, ProductId, ZERO_PRODUCT)
      requires Accepts(items, products)
      modifies this`products, productList
      ensures products == Sell(old(products), items)
    {
      WriteNewProductQuantityFromOrder(orderList, productList, items, products);
      products := StoreTable(productList, ProductId, Sell(products, items));
    }

    method PostBill(buyer: Client, orderList: array<Item>, billingInfo: array<Bill>, orderId: int, ghost items: seq<Item>) returns (id: int)
      requires Holds(orderList[..], items, ItemId, ZERO_ITEM) && Holds(billingInfo[..], bills, BillId, ZERO_BILL)
      requires |bills| + 1 < billingInfo.Length && orderId != 0
      modifies this`bills, billingInfo
      ensures id == orderId && bills == old(bills) + [Bill(orderId, buyer.uuid, buyer.contact, OrderCost(items))]
    {
      id := WriteOrderToBillingInfo(buyer, orderList, billingInfo, orderId, items, bills);
      bills := StoreTable(billingInfo, BillId, bills + [Bill(orderId, buyer.uuid, buyer.contact, OrderCost(items))]);
    }

    method PostLines(orderId: int, buyer: Client, orderList: array<Item>, customerOrderInfo: array<Line>, ghost items: seq<Item>)
      requires Holds(orderList[..], items, ItemId, ZERO_ITEM) && Holds(customerOrderInfo[..], lines, LineId, ZERO_LINE)
      requires |lines| + |items| < customerOrderInfo.Length && orderId != 0
      modifies this`lines, customerOrderInfo
      ensures lines == old(lines) + NewLines(orderId, buyer.contact, items)
    {
      WriteOrderToCustomerOrder(orderId, buyer, orderList, customerOrderInfo, items, lines);
      lines := StoreTable(customerOrderInfo, LineId, lines + NewLines(orderId, buyer.contact, items));
    }

    method BuyerRecord(buyerId: int) returns (buyer: Client)
      requires Valid() && Ends(FindBuyer(buyers, buyerId), |buyers|, buyerId)
      ensures buyer.uuid == buyerId && Some(buyer.contact) == FoundContact(buyers, buyerId)
    {
      var buyerList := LoadTable(buyers, ClientId, ZERO_CLIENT);
      var row := FindBuyerInClientInfo(buyerId, buyerList, buyers);
      buyer := buyerList[row];
    }

    /** The accepted branch of `completeAnOrder`. */
    method PostOrder(buyerId: int, orderList: array<Item>, productList: array<Product>, orderId: int, ghost items: seq<Item>)
      requires Holds(orderList[..], items, ItemId, ZERO_ITEM) && Holds(productList[..], products, ProductId, ZERO_PRODUCT)
      requires Valid() && Accepts(items, products) && orderId != 0 && Ends(FindBuyer(buyers, buyerId), |buyers|, buyerId)
      requires |bills| + 1 < MAX_ROWS && |lines| + |items| < MAX_ROWS
      modifies this, productList
      ensures Files() == Apply(old(Files()), CompleteOrder(buyerId, items, orderId))
    {
      var buyer := BuyerRecord(buyerId);
      var billingInfo := LoadTable(bills, BillId, ZERO_BILL);
      var customerOrderInfo := LoadTable(lines, LineId, ZERO_LINE);
      PostProducts(orderList, productList, items);
      var id := PostBill(buyer, orderList, billingInfo, orderId, items);
      PostLines(id, buyer, orderList, customerOrderInfo, items);
    }

    method CompleteAnOrder(buyerId: int, orderList: array<Item>, orderId: int, ghost items: seq<Item>) returns (confirmed: bool)
      requires Valid() && Holds(orderList[..], items, ItemId, ZERO_ITEM) && orderId != 0
      requires Accepts(items, products) ==>
        Ends(FindBuyer(buyers, buyerId), |buyers|, buyerId) && |bills| + 1 < MAX_ROWS && |lines| + |items| < MAX_ROWS
      modifies this
      ensures Valid() && Files() == Apply(old(Files()), CompleteOrder(buyerId, items, orderId))
      ensures confirmed <==> Accepts(items, old(products))
    {
      var productList := LoadTable(products, ProductId, ZERO_PRODUCT);
      confirmed := ValidateBuyerOrder(orderList, productList, items, products);
      if confirmed {
        OrderKeepsKeys(Files(), CompleteOrder(buyerId, items, orderId));
        PostOrder(buyerId, orderList, productList, orderId, items);
      }
    }

    method EditBuyerRow(id: int, e: Edit)
      requires Valid() && Ends(FindBuyer(buyers, id), |buyers|, id)
      modifies this`buyers
      ensures buyers == EditBuyer(old(buyers), id, e)
    {
      var buyerList := LoadTable(buyers, ClientId, ZERO_CLIENT);
      var row := FindBuyerInClientInfo(id, buyerList, buyers);
      buyerList[row] := buyerList[row].(contact := Edited(buyerList[row].contact, e));
      buyers := StoreTable(buyerList, ClientId, EditBuyer(buyers, id, e));
    }

    method EditBuyerBills(id: int, e: Edit, buyerOrderNums: array<int>) returns (orderCount: nat)
      requires Valid() && buyerOrderNums.Length == MAX_ROWS
      modifies this`bills, buyerOrderNums
      ensures bills == EditBills(old(bills), id, e)
      ensures orderCount <= MAX_ROWS && forall o :: o in buyerOrderNums[..orderCount] <==> IsOrderOf(old(bills), id, o)
    {
      var billingInfo := LoadTable(bills, BillId, ZERO_BILL);
      orderCount := EditBillingRows(billingInfo, id, e, buyerOrderNums, bills);
      bills := StoreTable(billingInfo, BillId, EditBills(bills, id, e));
    }

    method EditBuyerLines(id: int, e: Edit, buyerOrderNums: array<int>, orderCount: nat, ghost collectedFrom: seq<Bill>)
      requires Valid() && orderCount <= buyerOrderNums.Length
      requires forall o :: o in buyerOrderNums[..orderCount] <==> IsOrderOf(collectedFrom, id, o)
      modifies this`lines
      ensures lines == EditLines(old(lines), collectedFrom, id, e)
    {
      var customerOrderInfo := LoadTable(lines, LineId, ZERO_LINE);
      EditOrderRows(customerOrderInfo, buyerOrderNums, orderCount, e, lines, collectedFrom, id);
      lines := StoreTable(customerOrderInfo, LineId, EditLines(lines, collectedFrom, id, e));
    }

    /** `buyerEditsName` and `buyerEditsAddress`: the buyer's row, then the buyer's bills, then the
        lines of the orders collected from the bills. Buyer 0's row is the sentinel, which is not
        stored. */
    method BuyerEditsContact(id: int, e: Edit)
      requires Valid() && Ends(FindBuyer(buyers, id), |buyers|, id)
      modifies this
      ensures Valid() && Files() == Apply(old(Files()), EditContact(id, e))
    {
      EditBuyerRow(id, e);
      var buyerOrderNums := new int[MAX_ROWS];
      var orderCount := EditBuyerBills(id, e, buyerOrderNums);
      EditBuyerLines(id, e, buyerOrderNums, orderCount, old(bills));
    }

    method BuyerEditsNumber(id: int, phoneNumber: string)
      requires Valid() && Ends(FindBuyer(buyers, id), |buyers|, id)
      modifies this
      ensures Valid() && Files() == Apply(old(Files()), EditNumber(id, phoneNumber))
    {
      var buyerList := LoadTable(buyers, ClientId, ZERO_CLIENT);
      var row := FindBuyerInClientInfo(id, buyerList, buyers);
      buyerList[row] := buyerList[row].(phoneNumber := phoneNumber);
      buyers := StoreTable(buyerList, ClientId, EditPhone(buyers, id, phoneNumber));
    }

    /** The buyer branch of `writeNewClientData`: the phone number is not copied. */
    method RegisterBuyer(uuid: int, contact: Contact)
      requires Valid() && uuid != 0 && |buyers| + 1 < MAX_ROWS
      modifies this
      ensures Valid() && Files() == Apply(old(Files()), Cmd.RegisterBuyer(uuid, contact))
    {
      var clientDB := LoadTable(buyers, ClientId, ZERO_CLIENT);
      var lastOccupiedRow := 0;
      while clientDB[lastOccupiedRow].uuid != 0
        invariant lastOccupiedRow <= |buyers|
        decreases MAX_ROWS - lastOccupiedRow
      {
        lastOccupiedRow := lastOccupiedRow + 1;
      }
      clientDB[lastOccupiedRow] := clientDB[lastOccupiedRow].(uuid := uuid, contact := contact);
      buyers := StoreTable(clientDB, ClientId, buyers + [Client(uuid, contact, "")]);
    }

    method AddNewProduct(product: Product)
      requires Valid() && product.productId != 0 && |products| + 1 < MAX_ROWS
      modifies this
      ensures Valid() && Files() == Apply(old(Files()), AddProduct(product))
    {
      var pList := LoadTable(products, ProductId, ZERO_PRODUCT);
      var newRecordRow := 0;
      while pList[newRecordRow].productId != 0
        invariant newRecordRow <= |products|
        decreases MAX_ROWS - newRecordRow
      {
        newRecordRow := newRecordRow + 1;
      }
      pList[newRecordRow] := product;
      products := StoreTable(pList, ProductId, products + [product]);
    }

    /** The search of `modifyQuantity`, `modifyPrice` and `deleteProduct`. */
    static method FindProductRow(pList: array<Product>, productId: int, ghost ps: seq<Product>) returns (row: nat)
      requires Holds(pList[..], ps, ProductId, ZERO_PRODUCT)
      ensures row == FindProduct(ps, productId)
    {
      row := 0;
      while pList[row].productId != 0
        invariant row <= FindProduct(ps, productId)
        decreases pList.Length - row
      {
        if pList[row].productId == productId {
          break;
        }
        row := row + 1;
      }
    }

    /** A seller id of 0 passes the owner test at the sentinel row; the file does not change. */
    static method ChangeQuantity(pList: array<Product>, sellerId: int, productId: int, quantity: int, ghost ps: seq<Product>) returns (refused: bool)
      requires Holds(pList[..], ps, ProductId, ZERO_PRODUCT)
      modifies pList
      ensures Starts(pList[..], SetQuantity(ps, sellerId, productId, quantity), ProductId)
      ensures refused <==> SellerAt(ps, productId) != sellerId
    {
      var row := FindProductRow(pList, productId, ps);
      refused := pList[row].sellerId != sellerId;
      if !refused {
        pList[row] := pList[row].(quantity := quantity);
      }
    }

    method ModifyQuantity(sellerId: int, productId: int, quantity: int) returns (refused: bool)
      requires Valid()
      modifies this
      ensures Valid() && Files() == Apply(old(Files()), Cmd.ModifyQuantity(sellerId, productId, quantity))
      ensures refused <==> SellerAt(old(products), productId) != sellerId
    {
      var pList := LoadTable(products, ProductId, ZERO_PRODUCT);
      refused := ChangeQuantity(pList, sellerId, productId, quantity, products);
      products := StoreTable(pList, ProductId, SetQuantity(products, sellerId, productId, quantity));
    }

    static method ChangePrice(pList: array<Product>, sellerId: int, productId: int, price: int, ghost ps: seq<Product>) returns (refused: bool)
      requires Holds(pList[..], ps, ProductId, ZERO_PRODUCT)
      modifies pList
      ensures Starts(pList[..], SetPrice(ps, sellerId, productId, price), ProductId)
      ensures refused <==> SellerAt(ps, productId) != sellerId
    {
      var row := FindProductRow(pList, productId, ps);
      refused := pList[row].sellerId != sellerId;
      if !refused {
        pList[row] := pList[row].(price := price);
      }
    }

    method ModifyPrice(sellerId: int, productId: int, price: int) returns (refused: bool)
      requires Valid()
      modifies this
      ensures Valid() && Files() == Apply(old(Files()), Cmd.ModifyPrice(sellerId, productId, price))
      ensures refused <==> SellerAt(old(products), productId) != sellerId
    {
      var pList := LoadTable(products, ProductId, ZERO_PRODUCT);
      refused := ChangePrice(pList, sellerId, productId, price, products);
      products := StoreTable(pList, ProductId, SetPrice(products, sellerId, productId, price));
    }

    /** `validateID` finds the product or nothing happens. The owner's deletion keeps the other rows
        in order; anybody else's prints the zeroed list that was never filled, and empties the file. */
    method DeleteProduct(sellerId: int, productId: int) returns (refused: bool)
      requires Valid()
      modifies this`products
      ensures Valid() && refused == (SellerAt(old(products), productId) != sellerId)
      ensures products == if FindProduct(old(products), productId) == |old(products)| then old(products)
                          else if refused then []
                          else KeepOthers(old(products), ProductId, productId)
    {
      var pList := LoadTable(products, ProductId, ZERO_PRODUCT);
      var row := FindProductRow(pList, productId, products);
      refused := pList[row].sellerId != sellerId;
      if pList[row].productId != 0 {
        var modified := new Product[MAX_ROWS](i => ZERO_PRODUCT);
        ghost var kept := [];
        if !refused {
          CopyOthers(pList, modified, productId, ProductId, products, ZERO_PRODUCT, ProductId);
          KeptRows(products, ProductId, productId);
          kept := KeepOthers(products, ProductId, productId);
        }
        products := StoreTable(modified, ProductId, kept);
      }
    }

    method ReturnLines(customerOrderInfo: array<Line>, productIdToReturn: int)
      requires Valid() && Holds(customerOrderInfo[..], lines, LineId, ZERO_LINE) && customerOrderInfo.Length == MAX_ROWS
      modifies this`lines
      ensures lines == KeepOthers(old(lines), LineProduct, productIdToReturn)
    {
      var modified := new Line[MAX_ROWS](i => ZERO_LINE);
      CopyOthers(customerOrderInfo, modified, productIdToReturn, LineProduct, lines, ZERO_LINE, LineId);
      lines := StoreTable(modified, LineId, KeepOthers(lines, LineProduct, productIdToReturn));
    }

    method DeductFromBill(billingInfo: array<Bill>, orderId: int, itemCost: int)
      requires Holds(billingInfo[..], bills, BillId, ZERO_BILL) && Ends(FindBill(bills, orderId), |bills|, orderId)
      modifies this`bills, billingInfo
      ensures bills == Deduct(old(bills), orderId, itemCost)
    {
      var rowCount := 0;
      while billingInfo[rowCount].orderId != orderId
        invariant rowCount <= FindBill(bills, orderId)
        decreases billingInfo.Length - rowCount
      {
        rowCount := rowCount + 1;
      }
      billingInfo[rowCount] := billingInfo[rowCount].(totalOrderCost := billingInfo[rowCount].totalOrderCost - itemCost);
      bills := StoreTable(billingInfo, BillId, Deduct(bills, orderId, itemCost));
    }

    static method FirstLinePrice(customerOrderInfo: array<Line>, orderId: int, ghost ls: seq<Line>) returns (itemCost: int)
      requires Holds(customerOrderInfo[..], ls, LineId, ZERO_LINE) && Ends(FindLine(ls, orderId), |ls|, orderId)
      ensures Some(itemCost) == FoundPrice(ls, orderId)
    {
      var productRowLoc := 0;
      while customerOrderInfo[productRowLoc].orderId != orderId
        invariant productRowLoc <= FindLine(ls, orderId)
        decreases customerOrderInfo.Length - productRowLoc
      {
        productRowLoc := productRowLoc + 1;
      }
      itemCost := customerOrderInfo[productRowLoc].totalPrice;
    }

    /** Order 0 is nowhere: nothing is deducted, but the product goes all the same. */
    method BuyerModifiesOrder(orderId: int, productIdToReturn: int)
      requires Valid() && Ends(FindLine(lines, orderId), |lines|, orderId) && Ends(FindBill(bills, orderId), |bills|, orderId)
      modifies this
      ensures Valid() && Files() == Apply(old(Files()), ReturnProduct(orderId, productIdToReturn))
    {
      ReturnKeepsKeys(Files(), ReturnProduct(orderId, productIdToReturn));
      ReturnLinesAndDeduct(orderId, productIdToReturn);
    }

    method ReturnLinesAndDeduct(orderId: int, productIdToReturn: int)
      requires Valid() && Ends(FindLine(lines, orderId), |lines|, orderId) && Ends(FindBill(bills, orderId), |bills|, orderId)
      modifies this`lines, this`bills
      ensures lines == KeepOthers(old(lines), LineProduct, productIdToReturn)
      ensures bills == Deduct(old(bills), orderId, FoundPrice(old(lines), orderId).value)
    {
      var customerOrderInfo := LoadTable(lines, LineId, ZERO_LINE);
      var billingInfo := LoadTable(bills, BillId, ZERO_BILL);
      var itemCost := FirstLinePrice(customerOrderInfo, orderId, lines);
      ReturnLines(customerOrderInfo, productIdToReturn);
      DeductFromBill(billingInfo, orderId, itemCost);
    }
  }

  lemma {:induction false} KeptRows<T>(rows: seq<T>, productOf: T -> int, product: int)
    ensures |KeepOthers(rows, productOf, product)| <= |rows|
    ensures forall k :: 0 <= k < |KeepOthers(rows, productOf, product)| ==> KeepOthers(rows, productOf, product)[k] in rows
  {
    if rows != [] { KeptRows(rows[..|rows| - 1], productOf, product); }
  }
}
