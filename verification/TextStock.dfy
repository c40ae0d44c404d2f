/** Stock conservation over the text files: it holds exactly as long as nothing sells out. */
module TextStock {
  import opened TableText
  import opened Numbers
  import opened Shop
  import opened Books
  import opened Stock
  import opened TextFiles

  // ---------------------------------------------------------------------------------------
  // What a product file turns into, whatever its quantities.

  /** All that a product needs apart from its quantity. */
  predicate Shelved(p: Product) {
    p.productId > 0 && p.productName != "" && p.sellerId > 0 && p.price >= 0
  }

  /** How a shelved product comes back. A quantity that prints as nothing gives its place to the price;
      a negative one may also print as zeros. */
  function Reloaded(p: Product): Option<Product> {
    if p.quantity > 0 then Some(p)
    else if Printed(p.quantity) != "" then Some(p.(quantity := 0))
    else if p.price > 0 then Some(p.(quantity := p.price, price := 0))
    else None
  }

  function Unless(text: string): seq<string> { if text == "" then [] else [text] }

  lemma ProductTokens(p: Product)
    requires Shelved(p)
    ensures Tokens(ProductRow(p))
         == [Printed(p.productId), p.productName, Printed(p.sellerId)] + (Unless(Printed(p.quantity)) + (Unless(Printed(p.price)) + ["\n"]))
  {
    var row := ProductRow(p);
    NumberRoundTripIff(p.productId);
    NumberRoundTripIff(p.sellerId);
    var none: Row := [];
    assert row[4..][1..] == none && row[3..][1..] == row[4..] && row[2..][1..] == row[3..] && row[1..][1..] == row[2..];
    assert Tokens(row[4..]) == Unless(Printed(p.price)) + ["\n"];
    assert Tokens(row[3..]) == Unless(Printed(p.quantity)) + Tokens(row[4..]);
    assert Tokens(row[2..]) == [Printed(p.sellerId)] + Tokens(row[3..]);
    assert Tokens(row[1..]) == [p.productName] + Tokens(row[2..]);
  }

  lemma FiveFields(ts: seq<string>)
    ensures ParseTokens(ts, PRODUCT_KINDS).Some? <==> |ts| >= 5
    ensures |ts| >= 5 ==>
      ToProduct(ParseTokens(ts, PRODUCT_KINDS).value) == Product(Atoi(ts[0]), ts[1], Atoi(ts[2]), Atoi(ts[3]), Atoi(ts[4]))
  {
  }

  lemma ProductReloads(p: Product)
    requires CleanProduct(p) && Shelved(p)
    ensures var r := ParseFields(PrintRow(ProductRow(p)), PRODUCT_KINDS);
      if r.None? then Reloaded(p) == None else Reloaded(p) == Some(ToProduct(r.value))
  {
    ProductPrintable(p);
    PrintedTokens(ProductRow(p), PRODUCT_KINDS);
    ProductTokens(p);
    FiveFields(Tokens(ProductRow(p)));
    ProductNumbers(p);
  }

  lemma PrintsBack(n: int)
    ensures Atoi(Printed(n)) == if n > 0 then n else 0
    ensures n >= 0 ==> (Printed(n) == "" <==> n == 0)
  {
    NumberRoundTripIff(n);
  }

  lemma ProductNumbers(p: Product)
    requires Shelved(p)
    ensures Atoi(Printed(p.productId)) == p.productId && Atoi(Printed(p.sellerId)) == p.sellerId && Atoi(Printed(p.price)) == p.price
    ensures Atoi(Printed(p.quantity)) == (if p.quantity > 0 then p.quantity else 0) && (p.quantity > 0 ==> Printed(p.quantity) != "")
    ensures Printed(p.price) == "" <==> p.price == 0
    ensures Atoi("\n") == 0
  {
    PrintsBack(p.productId);
    PrintsBack(p.sellerId);
    PrintsBack(p.quantity);
    PrintsBack(p.price);
  }

  function ReloadedAll(ps: seq<Product>): Option<seq<Product>> {
    if ps == [] then Some([])
    else
      var p, rest := Reloaded(ps[0]), ReloadedAll(ps[1..]);
      if p.None? || rest.None? then None else Some([p.value] + rest.value)
  }

  lemma {:induction false} ReloadedAt(ps: seq<Product>, k: nat)
    requires k < |ps| && ReloadedAll(ps).Some?
    ensures |ReloadedAll(ps).value| == |ps| && Reloaded(ps[k]) == Some(ReloadedAll(ps).value[k])
  {
    if k > 0 { ReloadedAt(ps[1..], k - 1); } else if |ps| > 1 { ReloadedAt(ps[1..], 0); }
  }

  lemma ProductRowFits(p: Product)
    requires CleanProduct(p)
    ensures CleanRow(ProductRow(p)) && Width(Kinds(ProductRow(p))) < 199
  {
    LayoutsFitTheLine();
    ProductPrintable(p);
  }

  lemma EachMore(row: Row, rows: seq<Row>)
    ensures Each([row] + rows, ToProduct) == [ToProduct(row)] + Each(rows, ToProduct)
  {
  }

  lemma {:induction false} ProductLineReloads(p: Product, rest: string)
    requires CleanProduct(p) && Shelved(p)
    ensures var more := LoadTable(rest, PRODUCT_KINDS, ToProduct);
      LoadTable(PrintRow(ProductRow(p)) + rest, PRODUCT_KINDS, ToProduct)
      == if Reloaded(p).None? || more.None? then None else Some([Reloaded(p).value] + more.value)
  {
    ProductRowFits(p);
    ProductReloads(p);
    LoadLine(ProductRow(p), rest, PRODUCT_KINDS);
    var first, more := ParseFields(PrintRow(ProductRow(p)), PRODUCT_KINDS), Load(rest, PRODUCT_KINDS);
    if first.Some? && more.Some? { EachMore(first.value, more.value); }
  }

  lemma {:induction false} ProductLinesReload(ps: seq<Product>)
    requires forall k :: 0 <= k < |ps| ==> CleanProduct(ps[k]) && Shelved(ps[k])
    ensures LoadTable(PrintRows(RowsOf(ps, ProductRow)), PRODUCT_KINDS, ToProduct) == ReloadedAll(ps)
  {
    if ps == [] {
      assert Load("", PRODUCT_KINDS) == Some([]) && Each([], ToProduct) == [];
    } else {
      ProductLinesReload(ps[1..]);
      assert RowsOf(ps, ProductRow)[1..] == RowsOf(ps[1..], ProductRow);
      ProductLineReloads(ps[0], PrintRows(RowsOf(ps[1..], ProductRow)));
    }
  }

  /** ProductInfo.txt comes back product by product. */
  lemma {:induction false} ProductFileReloads(ps: seq<Product>)
    requires forall k :: 0 <= k < |ps| ==> CleanProduct(ps[k]) && Shelved(ps[k])
    ensures LoadTable(PrintRowsOf(ps, ProductRow), PRODUCT_KINDS, ToProduct) == ReloadedAll(ps)
  {
    ProductLinesReload(ps);
    PrintTableIsRows(RowsOf(ps, ProductRow));
  }

  lemma SoldOutChanges(p: Product)
    requires Shelved(p) && p.quantity <= 0 && Reloaded(p).Some?
    ensures Reloaded(p).value.quantity != p.quantity
  {
    NumberRoundTripIff(p.quantity);
  }

  lemma ReloadedIds(ps: seq<Product>, id: int)
    requires ReloadedAll(ps).Some?
    ensures FindProduct(ReloadedAll(ps).value, id) == FindProduct(ps, id) && |ReloadedAll(ps).value| == |ps|
  {
    var n := ReloadedAll(ps).value;
    if ps != [] { ReloadedAt(ps, 0); }
    forall k | 0 <= k < |ps| ensures n[k].productId == ps[k].productId { ReloadedAt(ps, k); }
    SameIds(n, ps, ProductId, id);
  }

  // ---------------------------------------------------------------------------------------
  // One order.

  /** On the shelf plus sold, for every product, is the same in both. */
  ghost predicate SameStock(a: Db, b: Db) {
    forall p :: Books.Stock(a.products, p) + Sold(a.lines, p) == Books.Stock(b.products, p) + Sold(b.lines, p)
  }

  ghost predicate FilesConserve(db: Db, f: Option<Files>) {
    f.Some? && LoadDb(f.value).Some? && SameStock(LoadDb(f.value).value, db)
  }

  /** An order with a number of its own whose lines are for something and cost something. */
  predicate GoodOrder(c: Cmd) {
    c.CompleteOrder? && c.orderId > 0 && forall i :: 0 <= i < |c.items| ==> GoodItem(c.items[i])
  }

  lemma {:induction false} SoldOutShelf(ps: seq<Product>, items: seq<Item>, k: nat)
    requires StorableProducts(ps) && (forall j :: 0 <= j < |ps| ==> CleanProduct(Sell(ps, items)[j]))
    requires k < |ps| && k == FindProduct(ps, ps[k].productId) && Ordered(items, ps[k].productId) >= ps[k].quantity
    ensures var back := LoadTable(PrintRowsOf(Sell(ps, items), ProductRow), PRODUCT_KINDS, ToProduct);
      back.Some? ==> Books.Stock(back.value, ps[k].productId) != Books.Stock(Sell(ps, items), ps[k].productId)
  {
    var n := Sell(ps, items);
    forall j | 0 <= j < |ps| ensures n[j].productId == ps[j].productId && Shelved(n[j]) {
      SellRows(ps, items, j);
      assert StorableProduct(ps[j]);
    }
    ProductFileReloads(n);
    SellRows(ps, items, k);
    SameIds(n, ps, ProductId, ps[k].productId);
    if ReloadedAll(n).Some? {
      ReloadedIds(n, ps[k].productId);
      ReloadedAt(n, k);
      SoldOutChanges(n[k]);
    }
  }

  lemma OtherStock(back: Db, n: Db, db: Db, p: int)
    requires back.lines == n.lines && Books.Stock(back.products, p) != Books.Stock(n.products, p)
    requires Books.Stock(n.products, p) + Sold(n.lines, p) == Books.Stock(db.products, p) + Sold(db.lines, p)
    ensures !SameStock(back, db)
  {
    assert Books.Stock(back.products, p) + Sold(back.lines, p) != Books.Stock(db.products, p) + Sold(db.lines, p);
  }

  lemma {:induction false} SoldOutBreaksStock(db: Db, c: Cmd, k: nat)
    requires StorableDb(db) && CleanDb(Apply(db, c)) && GoodOrder(c)
    requires Accepts(c.items, db.products) && FoundContact(db.buyers, c.buyerId).Some? && c.buyerId != 0
    requires k < |db.products| && k == FindProduct(db.products, db.products[k].productId)
    requires Ordered(c.items, db.products[k].productId) >= db.products[k].quantity
    ensures !FilesConserve(db, Some(PrintDb(Apply(db, c))))
  {
    SoldOutShelf(db.products, c.items, k);
    LinesOfOrderReload(db, c);
    ApplyConservesStock(db, c, db.products[k].productId);
    var n := Apply(db, c);
    if LoadDb(PrintDb(n)).Some? { OtherStock(LoadDb(PrintDb(n)).value, n, db, db.products[k].productId); }
  }

  lemma LinesOfOrderReload(db: Db, c: Cmd)
    requires StorableDb(db) && CleanDb(Apply(db, c)) && GoodOrder(c)
    requires Accepts(c.items, db.products) && FoundContact(db.buyers, c.buyerId).Some? && c.buyerId != 0
    ensures LoadTable(PrintDb(Apply(db, c)).lines, LINE_KINDS, ToLine) == Some(Apply(db, c).lines)
  {
    assert StorableClient(db.buyers[FindBuyer(db.buyers, c.buyerId)]);
    NewLinesStorableIff(db.lines, c.orderId, FoundContact(db.buyers, c.buyerId).value, c.items, db.products);
    LinesReloadIff(Apply(db, c).lines);
  }

  /** The bill of an accepted order for buyer 0 has too few fields to load at all. */
  lemma NobodysBillDoesNotLoad(db: Db, c: Cmd)
    requires StorableDb(db) && CleanDb(Apply(db, c)) && c.CompleteOrder? && c.buyerId == 0 && Accepts(c.items, db.products)
    ensures LoadDb(PrintDb(Apply(db, c))) == None
  {
    var n := Apply(db, c);
    assert n.bills[|db.bills|] == Bill(c.orderId, 0, NO_CONTACT, OrderCost(c.items));
    EmptyBillIsShort(c.orderId, OrderCost(c.items));
    ShortBillDoesNotLoad(n.bills, |db.bills|);
  }

  lemma {:induction false} ShortBillDoesNotLoad(bs: seq<Bill>, k: nat)
    requires (forall j :: 0 <= j < |bs| ==> CleanBill(bs[j])) && k < |bs| && |Tokens(BillRow(bs[k]))| < |BILL_KINDS|
    ensures LoadTable(PrintRowsOf(bs, BillRow), BILL_KINDS, ToBill) == None
  {
    var rows, kinds := RowsOf(bs, BillRow), BILL_KINDS;
    BillTableIsClean(bs);
    ShortRowDoesNotLoad(rows, kinds, k);
    PrintTableIsRows(rows);
  }

  lemma BillTableIsClean(bs: seq<Bill>)
    requires forall j :: 0 <= j < |bs| ==> CleanBill(bs[j])
    ensures CleanTable(RowsOf(bs, BillRow), BILL_KINDS)
  {
    LayoutsFitTheLine();
    forall j | 0 <= j < |bs| ensures CleanRow(BillRow(bs[j])) && Kinds(BillRow(bs[j])) == BILL_KINDS { BillPrintable(bs[j]); }
  }

  lemma EmptyBillIsShort(orderId: int, total: int)
    ensures |Tokens(BillRow(Bill(orderId, 0, NO_CONTACT, total)))| < |BILL_KINDS|
  {
    var row := BillRow(Bill(orderId, 0, NO_CONTACT, total));
    NumberRoundTripIff(0);
    EmptyFieldsSkipped(row[1..], 7);
    assert row[1..][7..] == row[8..];
  }

  lemma {:induction false} EmptyFieldsSkipped(row: Row, n: nat)
    requires n <= |row| && forall k :: 0 <= k < n ==> FieldText(row[k]) == ""
    ensures Tokens(row) == Tokens(row[n..])
  {
    if n > 0 {
      EmptyFieldsSkipped(row[1..], n - 1);
      assert row[1..][n - 1..] == row[n..];
    } else {
      assert row[0..] == row;
    }
  }

  lemma {:induction false} ShortRowDoesNotLoad(rows: seq<Row>, kinds: seq<Kind>, k: nat)
    requires CleanTable(rows, kinds) && k < |rows| && |Tokens(rows[k])| < |kinds|
    ensures Load(PrintRows(rows), kinds) == None
  {
    if k > 0 { ShortRowDoesNotLoad(rows[1..], kinds, k - 1); }
    BadLineSpoils(rows[0], PrintRows(rows[1..]), kinds);
  }

  lemma {:induction false} BadLineSpoils(row: Row, rest: string, kinds: seq<Kind>)
    requires CleanRow(row) && Width(Kinds(row)) < 199 && (|Tokens(row)| < |kinds| || Load(rest, kinds) == None)
    ensures Load(PrintRow(row) + rest, kinds) == None
  {
    LoadLine(row, rest, kinds);
    PrintedTokens(row, kinds);
  }

  lemma KeptOrderConserves(db: Db, c: Cmd)
    requires StorableDb(db) && CleanDb(Apply(db, c)) && KeepsFiles(db, c) && SellsOnly(c)
    ensures FilesConserve(db, Some(PrintDb(Apply(db, c))))
  {
    CommandKeepsFilesIff(db, c);
    forall p { ApplyConservesStock(db, c, p); }
  }

  lemma {:induction false} PrintedOrderConservesIff(db: Db, c: Cmd)
    requires StorableDb(db) && CleanDb(Apply(db, c)) && GoodOrder(c)
    ensures FilesConserve(db, Some(PrintDb(Apply(db, c)))) <==> KeepsFiles(db, c)
  {
    if KeepsFiles(db, c) {
      KeptOrderConserves(db, c);
    } else if c.buyerId == 0 {
      NobodysBillDoesNotLoad(db, c);
    } else {
      var k :| 0 <= k < |db.products| && k == FindProduct(db.products, db.products[k].productId)
        && Ordered(c.items, db.products[k].productId) >= db.products[k].quantity;
      SoldOutBreaksStock(db, c, k);
    }
  }

  /** An order conserves stock over its text files exactly when it is refused, or is for somebody and
      sells nothing out. */
  lemma {:induction false} OrderConservesTextStockIff(db: Db, c: Cmd)
    requires StorableDb(db) && CleanDb(db) && CleanDb(Apply(db, c)) && GoodOrder(c)
    ensures FilesConserve(db, TextApply(PrintDb(db), c))
       <==> (Accepts(c.items, db.products) && FoundContact(db.buyers, c.buyerId).Some?
             ==> c.buyerId != 0 && NothingSellsOut(db.products, c.items))
  {
    ReloadsIffStorable(db);
    TextApplyPrinted(db, c);
    PrintedOrderConservesIff(db, c);
  }

  // ---------------------------------------------------------------------------------------
  // Runs.

  ghost predicate ConservedAt(start: Db, cs: seq<Cmd>, n: nat)
    requires n <= |cs|
  {
    FilesConserve(start, TextReplay(PrintDb(start), cs[..n]))
  }

  lemma KeptConserves(start: Db, cs: seq<Cmd>, n: nat)
    requires StorableDb(start) && CleanAlong(start, cs) && n <= |cs|
    requires forall m :: 0 <= m < n ==> KeepsAt(start, cs, m) && SellsOnly(cs[m])
    ensures ConservedAt(start, cs, n) && SameStock(Replay(start, cs[..n]), start)
  {
    KeptIsPrinted(start, cs, n);
    forall p { RunConservesStock(start, cs[..n], p); }
  }

  lemma SameStockAsBefore(start: Db, db: Db, f: Option<Files>)
    requires SameStock(db, start)
    ensures FilesConserve(start, f) <==> FilesConserve(db, f)
  {
    if f.Some? && LoadDb(f.value).Some? {
      var n := LoadDb(f.value).value;
      if SameStock(n, start) || SameStock(n, db) {
        forall p ensures Books.Stock(n.products, p) + Sold(n.lines, p) == Books.Stock(db.products, p) + Sold(db.lines, p) {
          assert Books.Stock(db.products, p) + Sold(db.lines, p) == Books.Stock(start.products, p) + Sold(start.lines, p);
        }
        forall p ensures Books.Stock(n.products, p) + Sold(n.lines, p) == Books.Stock(start.products, p) + Sold(start.lines, p) {
          assert Books.Stock(db.products, p) + Sold(db.lines, p) == Books.Stock(start.products, p) + Sold(start.lines, p);
        }
      }
    }
  }

  lemma BreakShows(start: Db, cs: seq<Cmd>, n: nat)
    requires StorableDb(start) && CleanAlong(start, cs) && n < |cs| && forall m :: 0 <= m <= n ==> GoodOrder(cs[m])
    requires (forall m :: 0 <= m < n ==> KeepsAt(start, cs, m)) && !KeepsAt(start, cs, n)
    ensures !ConservedAt(start, cs, n + 1)
  {
    var db := Replay(start, cs[..n]);
    KeptConserves(start, cs, n);
    KeptIsPrinted(start, cs, n);
    PrefixOf(start, cs, n);
    assert CleanAt(start, cs, n) && CleanAt(start, cs, n + 1);
    OrderConservesTextStockIff(db, cs[n]);
    SameStockAsBefore(start, db, TextApply(PrintDb(db), cs[n]));
  }

  /** Over runs of orders: the files conserve the stock after every command exactly when no accepted
      order sells anything out. */
  lemma {:induction false} TextStockIff(start: Db, cs: seq<Cmd>)
    requires StorableDb(start) && CleanAlong(start, cs) && forall n :: 0 <= n < |cs| ==> GoodOrder(cs[n])
    ensures (forall n :: 0 <= n <= |cs| ==> ConservedAt(start, cs, n)) <==> AllKeep(start, cs)
  {
    if AllKeep(start, cs) {
      forall n | 0 <= n <= |cs| ensures ConservedAt(start, cs, n) { KeptConserves(start, cs, n); }
    } else {
      var n := FirstBreak(start, cs);
      BreakShows(start, cs, n);
    }
  }

  /** Over any commands that keep their files: the books in the files balance after the last one. */
  lemma {:induction false} TextKeepsBooks(start: Db, cs: seq<Cmd>)
    requires StorableDb(start) && CleanAlong(start, cs) && AllKeep(start, cs) && Books.Books(start) && GoodRun(start, cs)
    ensures var f := TextReplay(PrintDb(start), cs); f.Some? && LoadDb(f.value).Some? && Books.Books(LoadDb(f.value).value)
  {
    KeptIsPrinted(start, cs, |cs|);
    assert cs[..|cs|] == cs;
    RunKeepsBooksIff(start, cs);
    StorableHasNobody(Replay(start, cs));
  }

  lemma StorableHasNobody(db: Db)
    requires StorableDb(db)
    ensures !NobodysBill(db)
  {
  }

  // ---------------------------------------------------------------------------------------
  // The simplest case.

  /** A product that sells out does not survive its file: it comes back with its price as its quantity,
      and free. */
  lemma {:induction false} SoldOutProductIsCorrupted(p: Product)
    requires CleanProduct(p) && Shelved(p) && p.quantity == 0 && p.price > 0
    ensures LoadTable(PrintRowsOf([p], ProductRow), PRODUCT_KINDS, ToProduct) == Some([p.(quantity := p.price, price := 0)])
  {
    ProductFileReloads([p]);
    PrintsBack(0);
    assert Reloaded(p) == Some(p.(quantity := p.price, price := 0));
    ReloadedOne(p);
  }

  lemma ReloadedOne(p: Product)
    requires Reloaded(p).Some?
    ensures ReloadedAll([p]) == Some([Reloaded(p).value])
  {
    var one, none: seq<Product> := [p], [];
    assert one[0] == p && one[1..] == none && ReloadedAll(none) == Some(none);
    assert [Reloaded(p).value] + none == [Reloaded(p).value];
  }
}
