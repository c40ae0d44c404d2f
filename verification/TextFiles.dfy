/** The four files as text: a command loads what was printed and prints what it changed. When is that
    the same as passing the rows on? */
module TextFiles {
  import opened TableText
  import opened Shop
  import Locks
  import opened Serial
  import opened Books
  import opened Stock

  // ---------------------------------------------------------------------------------------
  // Rows from fields.

  function NumAt(row: Row, k: nat): int { if k < |row| && row[k].Num? then row[k].n else 0 }
  function TextAt(row: Row, k: nat): string { if k < |row| && row[k].Text? then row[k].s else "" }

  function ToProduct(r: Row): Product { Product(NumAt(r, 0), TextAt(r, 1), NumAt(r, 2), NumAt(r, 3), NumAt(r, 4)) }

  function ToClient(r: Row): Client {
    Client(NumAt(r, 0), Contact(TextAt(r, 1), TextAt(r, 2), TextAt(r, 4), TextAt(r, 5), TextAt(r, 6), TextAt(r, 7)), TextAt(r, 3))
  }

  function ToBill(r: Row): Bill {
    Bill(NumAt(r, 0), NumAt(r, 1), Contact(TextAt(r, 2), TextAt(r, 3), TextAt(r, 4), TextAt(r, 5), TextAt(r, 6), TextAt(r, 7)), NumAt(r, 8))
  }

  function ToLine(r: Row): Line {
    Line(NumAt(r, 0), NumAt(r, 1), NumAt(r, 2),
         Contact(TextAt(r, 3), TextAt(r, 4), TextAt(r, 5), TextAt(r, 6), TextAt(r, 7), TextAt(r, 8)), NumAt(r, 9))
  }

  /** The two directions agree on rows of the table's kinds. */
  ghost predicate Inverse<T(!new)>(fieldsOf: T -> Row, of: Row -> T, kinds: seq<Kind>) {
    && (forall x :: of(fieldsOf(x)) == x)
    && (forall r: Row :: Kinds(r) == kinds ==> fieldsOf(of(r)) == r)
  }

  lemma KindAt(r: Row, kinds: seq<Kind>, k: nat)
    requires Kinds(r) == kinds && k < |kinds|
    ensures |r| == |kinds| && (if kinds[k] == Int then r[k] == Num(NumAt(r, k)) else r[k] == Text(TextAt(r, k)))
  {
    assert Kinds(r)[k] == KindOf(r[k]);
  }

  lemma ProductInverse()
    ensures Inverse(ProductRow, ToProduct, PRODUCT_KINDS)
  {
    forall r: Row | Kinds(r) == PRODUCT_KINDS ensures ProductRow(ToProduct(r)) == r {
      forall k: nat | k < 5 { KindAt(r, PRODUCT_KINDS, k); }
    }
  }

  lemma ClientInverse()
    ensures Inverse(ClientRow, ToClient, CLIENT_KINDS)
  {
    forall r: Row | Kinds(r) == CLIENT_KINDS ensures ClientRow(ToClient(r)) == r {
      forall k: nat | k < 8 { KindAt(r, CLIENT_KINDS, k); }
    }
  }

  lemma BillInverse()
    ensures Inverse(BillRow, ToBill, BILL_KINDS)
  {
    forall r: Row | Kinds(r) == BILL_KINDS ensures BillRow(ToBill(r)) == r {
      forall k: nat | k < 9 { KindAt(r, BILL_KINDS, k); }
    }
  }

  lemma LineInverse()
    ensures Inverse(LineRow, ToLine, LINE_KINDS)
  {
    forall r: Row | Kinds(r) == LINE_KINDS ensures LineRow(ToLine(r)) == r {
      forall k: nat | k < 10 { KindAt(r, LINE_KINDS, k); }
    }
  }

  lemma {:induction false} ParsedKinds(s: string, kinds: seq<Kind>)
    ensures ParseFields(s, kinds).Some? ==> Kinds(ParseFields(s, kinds).value) == kinds
    decreases |kinds|
  {
    if kinds != [] && StrTok(s).Some? { ParsedKinds(StrTok(s).value.1, kinds[1..]); }
  }

  lemma {:induction false} LoadedKinds(file: string, kinds: seq<Kind>)
    ensures Load(file, kinds).Some? ==> forall r :: r in Load(file, kinds).value ==> Kinds(r) == kinds
    decreases |file|
  {
    if file != "" {
      var line := Fgets(file, 200);
      LoadedKinds(file[|line|..], kinds);
      ParsedKinds(line, kinds);
    }
  }

  // ---------------------------------------------------------------------------------------
  // Tables and files.

  function PrintRowsOf<T>(table: seq<T>, fieldsOf: T -> Row): string {
    PrintTable(RowsOf(table, fieldsOf))
  }

  function LoadTable<T>(file: string, kinds: seq<Kind>, of: Row -> T): Option<seq<T>> {
    var rows := Load(file, kinds);
    if rows.None? then None else Some(Each(rows.value, of))
  }

  function Each<T>(rows: seq<Row>, of: Row -> T): seq<T> {
    seq(|rows|, i requires 0 <= i < |rows| => of(rows[i]))
  }

  lemma ReloadsIff<T(!new)>(table: seq<T>, fieldsOf: T -> Row, of: Row -> T, kinds: seq<Kind>)
    requires Inverse(fieldsOf, of, kinds)
    ensures LoadTable(PrintRowsOf(table, fieldsOf), kinds, of) == Some(table) <==> Survives(table, fieldsOf, kinds)
  {
    var file, rows := PrintRowsOf(table, fieldsOf), RowsOf(table, fieldsOf);
    LoadedKinds(file, kinds);
    if LoadTable(file, kinds, of) == Some(table) {
      var back := Load(file, kinds).value;
      forall i | 0 <= i < |table| ensures back[i] == rows[i] {
        assert of(back[i]) == table[i] && Kinds(back[i]) == kinds;
      }
      assert back == rows;
    }
    assert Each(rows, of) == table;
  }

  /** CustomerInfo, ProductInfo, BillingInfo, CustomerOrder. */
  datatype Files = Files(buyers: string, products: string, bills: string, lines: string)

  function PrintDb(db: Db): Files {
    Files(PrintRowsOf(db.buyers, ClientRow), PrintRowsOf(db.products, ProductRow), PrintRowsOf(db.bills, BillRow),
          PrintRowsOf(db.lines, LineRow))
  }

  /** `None` when some line has too few fields and the C code would convert NULL. */
  function LoadDb(f: Files): Option<Db> {
    var cs := LoadTable(f.buyers, CLIENT_KINDS, ToClient);
    var ps := LoadTable(f.products, PRODUCT_KINDS, ToProduct);
    var bs := LoadTable(f.bills, BILL_KINDS, ToBill);
    var ls := LoadTable(f.lines, LINE_KINDS, ToLine);
    if cs.None? || ps.None? || bs.None? || ls.None? then None else Some(Db(cs.value, ps.value, bs.value, ls.value))
  }

  /** The next command sees what this one stored. */
  ghost predicate Reloads(db: Db) {
    LoadDb(PrintDb(db)) == Some(db)
  }

  /** Integers in range, strings short and free of commas and line ends. */
  ghost predicate CleanDb(db: Db) {
    && (forall k :: 0 <= k < |db.buyers| ==> CleanClient(db.buyers[k]))
    && (forall k :: 0 <= k < |db.products| ==> CleanProduct(db.products[k]))
    && (forall k :: 0 <= k < |db.bills| ==> CleanBill(db.bills[k]))
    && (forall k :: 0 <= k < |db.lines| ==> CleanLine(db.lines[k]))
  }

  predicate StorableClients(cs: seq<Client>) { forall k :: 0 <= k < |cs| ==> StorableClient(cs[k]) }
  predicate StorableProducts(ps: seq<Product>) { forall k :: 0 <= k < |ps| ==> StorableProduct(ps[k]) }
  predicate StorableBills(bs: seq<Bill>) { forall k :: 0 <= k < |bs| ==> StorableBill(bs[k]) }
  predicate StorableLines(ls: seq<Line>) { forall k :: 0 <= k < |ls| ==> StorableLine(ls[k]) }

  predicate StorableDb(db: Db) {
    StorableClients(db.buyers) && StorableProducts(db.products) && StorableBills(db.bills) && StorableLines(db.lines)
  }

  lemma {:induction false} BuyersReloadIff(cs: seq<Client>)
    requires forall k :: 0 <= k < |cs| ==> CleanClient(cs[k])
    ensures LoadTable(PrintRowsOf(cs, ClientRow), CLIENT_KINDS, ToClient) == Some(cs) <==> StorableClients(cs)
  {
    ClientInverse();
    ReloadsIff(cs, ClientRow, ToClient, CLIENT_KINDS);
    ClientFileSurvivesIff(cs);
  }

  lemma {:induction false} ProductsReloadIff(ps: seq<Product>)
    requires forall k :: 0 <= k < |ps| ==> CleanProduct(ps[k])
    ensures LoadTable(PrintRowsOf(ps, ProductRow), PRODUCT_KINDS, ToProduct) == Some(ps) <==> StorableProducts(ps)
  {
    ProductInverse();
    ReloadsIff(ps, ProductRow, ToProduct, PRODUCT_KINDS);
    ProductFileSurvivesIff(ps);
  }

  lemma {:induction false} BillsReloadIff(bs: seq<Bill>)
    requires forall k :: 0 <= k < |bs| ==> CleanBill(bs[k])
    ensures LoadTable(PrintRowsOf(bs, BillRow), BILL_KINDS, ToBill) == Some(bs) <==> StorableBills(bs)
  {
    BillInverse();
    ReloadsIff(bs, BillRow, ToBill, BILL_KINDS);
    BillFileSurvivesIff(bs);
  }

  lemma {:induction false} LinesReloadIff(ls: seq<Line>)
    requires forall k :: 0 <= k < |ls| ==> CleanLine(ls[k])
    ensures LoadTable(PrintRowsOf(ls, LineRow), LINE_KINDS, ToLine) == Some(ls) <==> StorableLines(ls)
  {
    LineInverse();
    ReloadsIff(ls, LineRow, ToLine, LINE_KINDS);
    LineFileSurvivesIff(ls);
  }

  /** What reloads is exactly what is storable, in all four files. */
  lemma {:induction false} ReloadsIffStorable(db: Db)
    requires CleanDb(db)
    ensures Reloads(db) <==> StorableDb(db)
  {
    BuyersReloadIff(db.buyers);
    ProductsReloadIff(db.products);
    BillsReloadIff(db.bills);
    LinesReloadIff(db.lines);
  }

  // ---------------------------------------------------------------------------------------
  // Which commands leave files that reload.

  predicate FullEdit(e: Edit) {
    match e
    case Name(f, l) => f != "" && l != ""
    case Address(s, c, st, z) => s != "" && c != "" && st != "" && z != ""
  }

  predicate GoodItem(item: Item) {
    item.quantity > 0 && item.quantity * item.itemCostPerUnit >= 0
  }

  /** The order leaves some of each product it names, and of each product at all: a row is found by its
      first match. */
  predicate NothingSellsOut(ps: seq<Product>, items: seq<Item>) {
    forall k :: 0 <= k < |ps| && k == FindProduct(ps, ps[k].productId) ==> Ordered(items, ps[k].productId) < ps[k].quantity
  }

  /** What a caller can check before the call. */
  ghost predicate KeepsFiles(db: Db, c: Cmd) {
    match c
    case CompleteOrder(id, items, orderId) =>
      Accepts(items, db.products) && FoundContact(db.buyers, id).Some? ==>
        id != 0 && orderId > 0 && (forall i :: 0 <= i < |items| ==> GoodItem(items[i])) && NothingSellsOut(db.products, items)
    case EditContact(id, e) =>
      FindBuyer(db.buyers, id) < |db.buyers| || (exists k :: 0 <= k < |db.bills| && db.bills[k].customerId == id) ==> FullEdit(e)
    case EditNumber(id, phone) => FindBuyer(db.buyers, id) < |db.buyers| ==> phone != ""
    case RegisterBuyer(_, _) => false
    case AddProduct(p) => StorableProduct(p)
    case ModifyQuantity(s, p, q) => Owns(db.products, s, p) ==> q > 0
    case ModifyPrice(s, p, v) => Owns(db.products, s, p) ==> v >= 0
    case ReturnProduct(orderId, p) =>
      var k, b := FindLine(db.lines, orderId), FindBill(db.bills, orderId);
      k < |db.lines| && b < |db.bills| ==> db.lines[k].totalPrice <= db.bills[b].totalOrderCost
  }

  /** ProductInfo after an order: it reloads if and only if nothing sells out. */
  lemma SoldProductsStorableIff(ps: seq<Product>, items: seq<Item>)
    requires StorableProducts(ps) && Accepts(items, ps)
    ensures StorableProducts(Sell(ps, items)) <==> NothingSellsOut(ps, items)
  {
    forall k | 0 <= k < |ps| { SellRows(ps, items, k); }
    var n := Sell(ps, items);
    if NothingSellsOut(ps, items) {
      forall k | 0 <= k < |ps| ensures StorableProduct(n[k]) { assert StorableProduct(ps[k]); }
    } else {
      var k :| 0 <= k < |ps| && k == FindProduct(ps, ps[k].productId) && Ordered(items, ps[k].productId) >= ps[k].quantity;
      assert !StorableProduct(n[k]);
    }
  }

  lemma NewLinesStorableIff(ls: seq<Line>, orderId: int, c: Contact, items: seq<Item>, ps: seq<Product>)
    requires StorableLines(ls) && FullContact(c) && StorableProducts(ps) && Accepts(items, ps) && orderId > 0
    ensures StorableLines(ls + NewLines(orderId, c, items)) <==> forall i :: 0 <= i < |items| ==> GoodItem(items[i])
  {
    var n := ls + NewLines(orderId, c, items);
    forall i | 0 <= i < |items| ensures StorableLine(n[|ls| + i]) <==> GoodItem(items[i]) {
      assert AcceptsLine(items[i], ps);
      assert n[|ls| + i] == LineOf(orderId, c, items[i]);
    }
    if forall i :: 0 <= i < |items| ==> GoodItem(items[i]) {
      forall k | 0 <= k < |n| ensures StorableLine(n[k]) {
        if k >= |ls| { assert GoodItem(items[k - |ls|]); }
      }
    }
  }

  lemma {:induction false} GoodItemsCost(items: seq<Item>)
    requires forall i :: 0 <= i < |items| ==> GoodItem(items[i])
    ensures OrderCost(items) >= 0
  {
    if items != [] { GoodItemsCost(items[..|items| - 1]); }
  }

  /** A bill of customer 0 does not reload. */
  lemma OrderKeepsFilesIff(db: Db, c: Cmd)
    requires StorableDb(db) && c.CompleteOrder?
    ensures StorableDb(Apply(db, c)) <==> KeepsFiles(db, c)
  {
    var n := Apply(db, c);
    if Accepts(c.items, db.products) && FoundContact(db.buyers, c.buyerId).Some? {
      var contact := FoundContact(db.buyers, c.buyerId).value;
      assert n.bills[|db.bills|].orderId == c.orderId && n.bills[|db.bills|].customerId == c.buyerId;
      if c.buyerId != 0 {
        assert StorableClient(db.buyers[FindBuyer(db.buyers, c.buyerId)]);
        SoldProductsStorableIff(db.products, c.items);
        if c.orderId > 0 {
          NewLinesStorableIff(db.lines, c.orderId, contact, c.items, db.products);
          if forall i :: 0 <= i < |c.items| ==> GoodItem(c.items[i]) { GoodItemsCost(c.items); }
        }
      } else {
        assert !StorableBill(n.bills[|db.bills|]);
      }
    }
  }

  lemma EditedStorable(c: Contact, e: Edit)
    requires FullContact(c)
    ensures FullContact(Edited(c, e)) <==> FullEdit(e)
  {
  }

  lemma EditKeepsFilesIff(db: Db, c: Cmd)
    requires StorableDb(db) && c.EditContact?
    ensures StorableDb(Apply(db, c)) <==> KeepsFiles(db, c)
  {
    var n, id, e := Apply(db, c), c.buyerId, c.edit;
    forall k | 0 <= k < |db.buyers| { EditedStorable(db.buyers[k].contact, e); }
    forall k | 0 <= k < |db.bills| { EditedStorable(db.bills[k].contact, e); }
    forall k | 0 <= k < |db.lines| { EditedStorable(db.lines[k].contact, e); }
    if FullEdit(e) {
      assert StorableClients(n.buyers) && StorableBills(n.bills) && StorableLines(n.lines);
    } else if k :| 0 <= k < |db.bills| && db.bills[k].customerId == id {
      assert !StorableBill(n.bills[k]);
    } else if FindBuyer(db.buyers, id) < |db.buyers| {
      assert !StorableClient(n.buyers[FindBuyer(db.buyers, id)]);
    } else {
      assert n.buyers == db.buyers && n.bills == db.bills && n.lines == db.lines;
    }
  }

  lemma ReturnKeepsFilesIff(db: Db, c: Cmd)
    requires StorableDb(db) && c.ReturnProduct?
    ensures StorableDb(Apply(db, c)) <==> KeepsFiles(db, c)
  {
    var n := Apply(db, c);
    KeepOthersMembers(db.lines, c.productId);
    assert forall l :: l in db.lines ==> StorableLine(l);
    forall k | 0 <= k < |n.lines| ensures StorableLine(n.lines[k]) { assert n.lines[k] in n.lines; }
    var b := FindBill(db.bills, c.orderId);
    if n != db && b < |db.bills| { assert StorableBill(n.bills[b]) <==> n.bills[b].totalOrderCost >= 0; }
  }

  /** For every command: the files it leaves reload if and only if the caller's condition holds. */
  lemma {:induction false} CommandKeepsFilesIff(db: Db, c: Cmd)
    requires StorableDb(db) && CleanDb(Apply(db, c))
    ensures Reloads(Apply(db, c)) <==> KeepsFiles(db, c)
  {
    ReloadsIffStorable(Apply(db, c));
    StorableIffKeeps(db, c);
  }

  lemma StorableIffKeeps(db: Db, c: Cmd)
    requires StorableDb(db)
    ensures StorableDb(Apply(db, c)) <==> KeepsFiles(db, c)
  {
    var n := Apply(db, c);
    match c
    case CompleteOrder(_, _, _) => OrderKeepsFilesIff(db, c);
    case EditContact(_, _) => EditKeepsFilesIff(db, c);
    case ReturnProduct(_, _) => ReturnKeepsFilesIff(db, c);
    case EditNumber(id, phone) =>
      var k := FindBuyer(db.buyers, id);
      if k < |db.buyers| { assert StorableClient(n.buyers[k]) <==> phone != ""; }
    case RegisterBuyer(_, _) => assert !StorableClient(n.buyers[|db.buyers|]);
    case AddProduct(p) => assert n.products[|db.products|] == p;
    case ModifyQuantity(s, p, q) =>
      var k := FindProduct(db.products, p);
      if Owns(db.products, s, p) { assert StorableProduct(n.products[k]) <==> q > 0; }
    case ModifyPrice(s, p, v) =>
      var k := FindProduct(db.products, p);
      if Owns(db.products, s, p) { assert StorableProduct(n.products[k]) <==> v >= 0; }
  }

  // ---------------------------------------------------------------------------------------
  // Runs over text.

  /** The files a command prints again: a refused order prints none. */
  ghost function Stored(db: Db, c: Cmd): seq<Locks.Table> {
    if c.CompleteOrder? && !(Accepts(c.items, db.products) && FoundContact(db.buyers, c.buyerId).Some?) then [] else LocksOf(c)
  }

  function StoreFiles(f: Files, tables: seq<Locks.Table>, db: Db): Files {
    var p := PrintDb(db);
    Files(if Locks.CustomerInfo in tables then p.buyers else f.buyers, if Locks.ProductInfo in tables then p.products else f.products,
          if Locks.BillingInfo in tables then p.bills else f.bills, if Locks.CustomerOrder in tables then p.lines else f.lines)
  }

  /** One command: load, work, print. */
  ghost function TextApply(f: Files, c: Cmd): Option<Files> {
    var db := LoadDb(f);
    if db.None? then None else Some(StoreFiles(f, Stored(db.value, c), Apply(db.value, c)))
  }

  ghost function TextReplay(f: Files, cs: seq<Cmd>): Option<Files> {
    if cs == [] then Some(f)
    else
      var g := TextReplay(f, cs[..|cs| - 1]);
      if g.None? then None else TextApply(g.value, cs[|cs| - 1])
  }

  lemma TextApplyPrinted(db: Db, c: Cmd)
    requires Reloads(db)
    ensures TextApply(PrintDb(db), c) == Some(PrintDb(Apply(db, c)))
  {
    var n := Apply(db, c);
    if Stored(db, c) == LocksOf(c) {
      forall t | t !in LocksOf(c) { ApplyFrame(c, db, t); }
      assert Locks.CustomerInfo !in LocksOf(c) ==> SameTable(Locks.CustomerInfo, n, db);
      assert Locks.ProductInfo !in LocksOf(c) ==> SameTable(Locks.ProductInfo, n, db);
      assert Locks.BillingInfo !in LocksOf(c) ==> SameTable(Locks.BillingInfo, n, db);
      assert Locks.CustomerOrder !in LocksOf(c) ==> SameTable(Locks.CustomerOrder, n, db);
    }
  }

  ghost predicate CleanAt(start: Db, cs: seq<Cmd>, n: nat)
    requires n <= |cs|
  {
    CleanDb(Replay(start, cs[..n]))
  }

  ghost predicate CleanAlong(start: Db, cs: seq<Cmd>) {
    forall n :: 0 <= n <= |cs| ==> CleanAt(start, cs, n)
  }

  ghost predicate KeepsAt(start: Db, cs: seq<Cmd>, n: nat)
    requires n < |cs|
  {
    KeepsFiles(Replay(start, cs[..n]), cs[n])
  }

  ghost predicate AllKeep(start: Db, cs: seq<Cmd>) {
    forall n :: 0 <= n < |cs| ==> KeepsAt(start, cs, n)
  }

  /** After the first `n` commands the files hold the rows of the replay. */
  ghost predicate HoldsRows(start: Db, cs: seq<Cmd>, n: nat)
    requires n <= |cs|
  {
    var f := TextReplay(PrintDb(start), cs[..n]);
    f.Some? && LoadDb(f.value) == Some(Replay(start, cs[..n]))
  }

  ghost predicate AllHold(start: Db, cs: seq<Cmd>) {
    forall n :: 0 <= n <= |cs| ==> HoldsRows(start, cs, n)
  }

  lemma PrefixOf(start: Db, cs: seq<Cmd>, n: nat)
    requires n < |cs|
    ensures cs[..n + 1][..n] == cs[..n]
    ensures Replay(start, cs[..n + 1]) == Apply(Replay(start, cs[..n]), cs[n])
    ensures TextReplay(PrintDb(start), cs[..n + 1])
         == if TextReplay(PrintDb(start), cs[..n]).None? then None else TextApply(TextReplay(PrintDb(start), cs[..n]).value, cs[n])
  {
  }

  /** As long as every command keeps the files, they are the printed replay. */
  lemma {:induction false} KeptIsPrinted(start: Db, cs: seq<Cmd>, n: nat)
    requires StorableDb(start) && CleanAlong(start, cs) && n <= |cs|
    requires forall m :: 0 <= m < n ==> KeepsAt(start, cs, m)
    ensures TextReplay(PrintDb(start), cs[..n]) == Some(PrintDb(Replay(start, cs[..n])))
    ensures StorableDb(Replay(start, cs[..n])) && HoldsRows(start, cs, n)
  {
    assert CleanAt(start, cs, n);
    if n == 0 {
      assert cs[..0] == [];
    } else {
      KeptIsPrinted(start, cs, n - 1);
      PrefixOf(start, cs, n - 1);
      assert CleanAt(start, cs, n - 1) && KeepsAt(start, cs, n - 1);
      ReloadsIffStorable(Replay(start, cs[..n - 1]));
      TextApplyPrinted(Replay(start, cs[..n - 1]), cs[n - 1]);
      StorableIffKeeps(Replay(start, cs[..n - 1]), cs[n - 1]);
    }
    ReloadsIffStorable(Replay(start, cs[..n]));
  }

  lemma {:induction false} HeldNext(db: Db, c: Cmd)
    requires StorableDb(db) && CleanDb(db) && CleanDb(Apply(db, c))
    requires TextApply(PrintDb(db), c).Some? ==> LoadDb(TextApply(PrintDb(db), c).value) == Some(Apply(db, c))
    ensures KeepsFiles(db, c)
  {
    ReloadsIffStorable(db);
    TextApplyPrinted(db, c);
    CommandKeepsFilesIff(db, c);
  }

  lemma {:induction false} HeldStep(start: Db, cs: seq<Cmd>, n: nat)
    requires n < |cs| && CleanAt(start, cs, n) && CleanAt(start, cs, n + 1) && StorableDb(Replay(start, cs[..n]))
    requires TextReplay(PrintDb(start), cs[..n]) == Some(PrintDb(Replay(start, cs[..n]))) && HoldsRows(start, cs, n + 1)
    ensures KeepsAt(start, cs, n)
  {
    PrefixOf(start, cs, n);
    HeldNext(Replay(start, cs[..n]), cs[n]);
  }

  lemma {:induction false} HeldSoFar(start: Db, cs: seq<Cmd>, n: nat)
    requires StorableDb(start) && CleanAlong(start, cs) && n < |cs| && HoldsRows(start, cs, n + 1)
    requires forall m :: 0 <= m < n ==> KeepsAt(start, cs, m)
    ensures KeepsAt(start, cs, n)
  {
    KeptIsPrinted(start, cs, n);
    assert CleanAt(start, cs, n) && CleanAt(start, cs, n + 1);
    HeldStep(start, cs, n);
  }

  lemma FirstFailure(ok: nat -> bool, k: nat) returns (n: nat)
    requires !ok(k)
    ensures n <= k && !ok(n) && forall m :: 0 <= m < n ==> ok(m)
  {
    n := 0;
    while ok(n)
      invariant n <= k && forall m :: 0 <= m < n ==> ok(m)
      decreases k - n
    {
      n := n + 1;
    }
  }

  lemma FirstBreak(start: Db, cs: seq<Cmd>) returns (n: nat)
    requires !AllKeep(start, cs)
    ensures n < |cs| && !KeepsAt(start, cs, n) && forall m :: 0 <= m < n ==> KeepsAt(start, cs, m)
  {
    var k :| 0 <= k < |cs| && !KeepsAt(start, cs, k);
    var ok := (m: nat) => m < |cs| && KeepsAt(start, cs, m);
    n := FirstFailure(ok, k);
    forall m | 0 <= m < n ensures KeepsAt(start, cs, m) { assert ok(m); }
  }

  /** The text files go the way of the rows, command after command, if and only if every command keeps
      them: this is when the results about rows are results about the files. */
  lemma {:induction false} TextRunIff(start: Db, cs: seq<Cmd>)
    requires StorableDb(start) && CleanAlong(start, cs)
    ensures AllHold(start, cs) <==> AllKeep(start, cs)
  {
    if AllKeep(start, cs) {
      forall n | 0 <= n <= |cs| ensures HoldsRows(start, cs, n) { KeptIsPrinted(start, cs, n); }
    } else if AllHold(start, cs) {
      var n := FirstBreak(start, cs);
      assert HoldsRows(start, cs, n + 1);
      HeldSoFar(start, cs, n);
    }
  }
}
