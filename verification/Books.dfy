/** The bookkeeping invariants: what the commands keep over whole runs, and exactly when a return
    or an order keeps them. */
module Books {
  import opened Shop

  // ---------------------------------------------------------------------------------------
  // Sums over tables.

  function LineTotal(ls: seq<Line>, orderId: int): int {
    if ls == [] then 0
    else LineTotal(ls[..|ls| - 1], orderId) + if ls[|ls| - 1].orderId == orderId then ls[|ls| - 1].totalPrice else 0
  }

  function Sold(ls: seq<Line>, product: int): int {
    if ls == [] then 0
    else Sold(ls[..|ls| - 1], product) + if ls[|ls| - 1].productId == product then ls[|ls| - 1].quantityPurchased else 0
  }

  function Ordered(items: seq<Item>, product: int): int {
    if items == [] then 0
    else Ordered(items[..|items| - 1], product) + if items[|items| - 1].productId == product then items[|items| - 1].quantity else 0
  }

  /** What `KeepOthers` takes away from one order. */
  function RemovedTotal(ls: seq<Line>, orderId: int, product: int): int {
    if ls == [] then 0
    else
      var l := ls[|ls| - 1];
      RemovedTotal(ls[..|ls| - 1], orderId, product) + if l.orderId == orderId && l.productId == product then l.totalPrice else 0
  }

  function Stock(ps: seq<Product>, product: int): int {
    var k := FindProduct(ps, product);
    if k < |ps| then ps[k].quantity else 0
  }

  lemma {:induction false} NewLinesTotals(ls: seq<Line>, orderId: int, c: Contact, items: seq<Item>, o: int, p: int)
    ensures LineTotal(ls + NewLines(orderId, c, items), o) == LineTotal(ls, o) + if o == orderId then OrderCost(items) else 0
    ensures Sold(ls + NewLines(orderId, c, items), p) == Sold(ls, p) + Ordered(items, p)
  {
    var all := ls + NewLines(orderId, c, items);
    if items == [] {
      assert all == ls;
    } else {
      var n := |items| - 1;
      assert all[..|all| - 1] == ls + NewLines(orderId, c, items[..n]);
      NewLinesTotals(ls, orderId, c, items[..n], o, p);
    }
  }

  lemma {:induction false} EditKeepsTotals(ls: seq<Line>, bs: seq<Bill>, id: int, e: Edit, o: int, p: int)
    ensures LineTotal(EditLines(ls, bs, id, e), o) == LineTotal(ls, o)
    ensures Sold(EditLines(ls, bs, id, e), p) == Sold(ls, p)
  {
    if ls != [] {
      var r := EditLines(ls, bs, id, e);
      assert r[..|r| - 1] == EditLines(ls[..|ls| - 1], bs, id, e);
      EditKeepsTotals(ls[..|ls| - 1], bs, id, e, o, p);
    }
  }

  lemma {:induction false} KeepOthersTotals(ls: seq<Line>, product: int, o: int)
    ensures LineTotal(KeepOthers(ls, LineProduct, product), o) == LineTotal(ls, o) - RemovedTotal(ls, o, product)
  {
    if ls != [] {
      KeepOthersTotals(ls[..|ls| - 1], product, o);
      var r := KeepOthers(ls, LineProduct, product);
      if ls[|ls| - 1].productId != product {
        assert r[..|r| - 1] == KeepOthers(ls[..|ls| - 1], LineProduct, product);
      } else {
        assert r == KeepOthers(ls[..|ls| - 1], LineProduct, product);
      }
    }
  }

  /** Each surviving row was there, and is not of that product. */
  lemma {:induction false} KeepOthersMembers(ls: seq<Line>, product: int)
    ensures forall l :: l in KeepOthers(ls, LineProduct, product) <==> l in ls && l.productId != product
  {
    if ls != [] {
      KeepOthersMembers(ls[..|ls| - 1], product);
      assert ls == ls[..|ls| - 1] + [ls[|ls| - 1]];
    }
  }

  // ---------------------------------------------------------------------------------------
  // The invariants.

  ghost predicate UniqueBills(db: Db) {
    forall i, j :: 0 <= i < j < |db.bills| ==> db.bills[i].orderId != db.bills[j].orderId
  }

  ghost predicate Adds(b: Bill, ls: seq<Line>) {
    b.totalOrderCost == LineTotal(ls, b.orderId)
  }

  /** Each bill's total is the sum of its order's lines. */
  ghost predicate Ledger(db: Db) {
    forall k :: 0 <= k < |db.bills| ==> Adds(db.bills[k], db.lines)
  }

  ghost predicate Billed(l: Line, bs: seq<Bill>) {
    exists k :: 0 <= k < |bs| && bs[k].orderId == l.orderId && bs[k].contact == l.contact
  }

  /** The name and address in each bill are the buyer's. */
  ghost predicate BillsMatch(db: Db) {
    forall k :: 0 <= k < |db.bills| ==> ContactOf(db.buyers, db.bills[k].customerId) == Some(db.bills[k].contact)
  }

  ghost predicate LinesBilled(db: Db) {
    forall i :: 0 <= i < |db.lines| ==> Billed(db.lines[i], db.bills)
  }

  /** Every order line has exactly one bill (its order number is unique among bills), and the name
      and address in the bill and the line are the buyer's. */
  ghost predicate Copies(db: Db) { BillsMatch(db) && LinesBilled(db) }

  ghost predicate Books(db: Db) {
    UniqueBills(db) && Ledger(db) && Copies(db)
  }

  /** The returned lines of the order cost as much as its first line, and no other bill's order
      loses anything. Checkable before the call. */
  ghost predicate ReturnBalances(db: Db, orderId: int, product: int)
    requires FoundPrice(db.lines, orderId).Some?
  {
    && RemovedTotal(db.lines, orderId, product) == FoundPrice(db.lines, orderId).value
    && forall k :: 0 <= k < |db.bills| && db.bills[k].orderId != orderId ==> RemovedTotal(db.lines, db.bills[k].orderId, product) == 0
  }

  /** What the callers owe: order ids are fresh, and a return names an order that is there, or order 0,
      which is nowhere and for which both searches stop at the zero rows. */
  ghost predicate Admissible(db: Db, c: Cmd) {
    match c
    case CompleteOrder(_, _, orderId) => FindBill(db.bills, orderId) == |db.bills|
    case ReturnProduct(orderId, _) =>
      if FindLine(db.lines, orderId) < |db.lines| then FindBill(db.bills, orderId) < |db.bills| else orderId == 0
    case _ => true
  }

  /** The guard that only a return needs. */
  ghost predicate BalancedReturn(db: Db, c: Cmd)
    requires Admissible(db, c)
  {
    c.ReturnProduct? ==> ReturnBalances(db, c.orderId, c.productId)
  }

  /** An accepted order for buyer 0, who has no row: the search stops at the zero row, and a bill and
      lines without name and address are posted. */
  ghost predicate PostsForNobody(db: Db, c: Cmd) {
    c.CompleteOrder? && c.buyerId == 0 && FindBuyer(db.buyers, 0) == |db.buyers| && Accepts(c.items, db.products)
  }

  lemma {:induction false} NoLinesNoTotal(ls: seq<Line>, orderId: int)
    requires forall i :: 0 <= i < |ls| ==> ls[i].orderId != orderId
    ensures LineTotal(ls, orderId) == 0
  {
    if ls != [] { NoLinesNoTotal(ls[..|ls| - 1], orderId); }
  }

  lemma OrderKeepsLedger(db: Db, c: Cmd)
    requires Ledger(db) && LinesBilled(db) && c.CompleteOrder? && Admissible(db, c)
    ensures Ledger(Apply(db, c))
  {
    var n := Apply(db, c);
    if n != db {
      var contact := FoundContact(db.buyers, c.buyerId).value;
      forall i | 0 <= i < |db.lines| ensures db.lines[i].orderId != c.orderId { assert Billed(db.lines[i], db.bills); }
      NoLinesNoTotal(db.lines, c.orderId);
      forall k | 0 <= k < |n.bills| ensures Adds(n.bills[k], n.lines) {
        NewLinesTotals(db.lines, c.orderId, contact, c.items, n.bills[k].orderId, 0);
        assert k < |db.bills| ==> n.bills[k] == db.bills[k] && Adds(db.bills[k], db.lines);
      }
    }
  }

  lemma OrderBillsItsLines(db: Db, c: Cmd)
    requires LinesBilled(db) && c.CompleteOrder?
    ensures LinesBilled(Apply(db, c))
  {
    var n := Apply(db, c);
    if n != db {
      forall i | 0 <= i < |n.lines| ensures Billed(n.lines[i], n.bills) {
        if i < |db.lines| {
          assert Billed(db.lines[i], db.bills);
          var k :| 0 <= k < |db.bills| && db.bills[k].orderId == db.lines[i].orderId && db.bills[k].contact == db.lines[i].contact;
          assert n.bills[k] == db.bills[k];
        } else {
          assert n.bills[|db.bills|].orderId == n.lines[i].orderId;
        }
      }
    }
  }

  /** The new bill and lines carry the buyer's name and address, unless they are for nobody. */
  lemma OrderKeepsCopiesIff(db: Db, c: Cmd)
    requires Copies(db) && c.CompleteOrder?
    ensures LinesBilled(Apply(db, c)) && (Copies(Apply(db, c)) <==> !PostsForNobody(db, c))
  {
    var n := Apply(db, c);
    OrderBillsItsLines(db, c);
    if PostsForNobody(db, c) {
      assert n.bills[|db.bills|].customerId == 0 && n.buyers == db.buyers;
    } else {
      assert forall k :: 0 <= k < |db.bills| ==> n.bills[k] == db.bills[k];
    }
  }

  lemma EditedBuyer(bs: seq<Client>, id: int, e: Edit, other: int)
    requires ContactOf(bs, other).Some?
    ensures ContactOf(EditBuyer(bs, id, e), other)
         == Some(if other == id then Edited(ContactOf(bs, id).value, e) else ContactOf(bs, other).value)
  {
    SameIds(bs, EditBuyer(bs, id, e), ClientId, other);
  }

  lemma EditKeepsCopies(db: Db, id: int, e: Edit)
    requires UniqueBills(db) && LinesBilled(db)
    ensures LinesBilled(Apply(db, EditContact(id, e)))
    ensures BillsMatch(db) ==> BillsMatch(Apply(db, EditContact(id, e)))
  {
    var n := Apply(db, EditContact(id, e));
    if BillsMatch(db) {
      forall k | 0 <= k < |n.bills| ensures ContactOf(n.buyers, n.bills[k].customerId) == Some(n.bills[k].contact) {
        EditedBuyer(db.buyers, id, e, db.bills[k].customerId);
      }
    }
    forall i | 0 <= i < |n.lines| ensures Billed(n.lines[i], n.bills) {
      EditedLineBilled(db, id, e, i);
    }
  }

  lemma EditedLineBilled(db: Db, id: int, e: Edit, i: nat)
    requires UniqueBills(db) && i < |db.lines| && Billed(db.lines[i], db.bills)
    ensures Billed(EditLines(db.lines, db.bills, id, e)[i], EditBills(db.bills, id, e))
  {
    var k :| 0 <= k < |db.bills| && db.bills[k].orderId == db.lines[i].orderId && db.bills[k].contact == db.lines[i].contact;
    assert IsOrderOf(db.bills, id, db.lines[i].orderId) <==> db.bills[k].customerId == id;
    assert EditBills(db.bills, id, e)[k].orderId == db.lines[i].orderId;
  }

  lemma EditKeepsLedger(db: Db, id: int, e: Edit)
    requires Ledger(db)
    ensures Ledger(Apply(db, EditContact(id, e)))
  {
    var n := Apply(db, EditContact(id, e));
    forall k | 0 <= k < |n.bills| ensures Adds(n.bills[k], n.lines) {
      assert Adds(db.bills[k], db.lines);
      EditKeepsTotals(db.lines, db.bills, id, e, db.bills[k].orderId, 0);
    }
  }

  lemma DeductKeepsBilled(l: Line, bs: seq<Bill>, orderId: int, cost: int)
    requires Billed(l, bs)
    ensures Billed(l, Deduct(bs, orderId, cost))
  {
    var k :| 0 <= k < |bs| && bs[k].orderId == l.orderId && bs[k].contact == l.contact;
    assert Deduct(bs, orderId, cost)[k].orderId == l.orderId;
  }

  lemma ReturnKeepsCopies(db: Db, orderId: int, product: int)
    requires LinesBilled(db)
    ensures LinesBilled(Apply(db, ReturnProduct(orderId, product)))
    ensures BillsMatch(db) ==> BillsMatch(Apply(db, ReturnProduct(orderId, product)))
  {
    var n := Apply(db, ReturnProduct(orderId, product));
    if FoundPrice(db.lines, orderId).Some? {
      KeepOthersMembers(db.lines, product);
      forall i | 0 <= i < |n.lines| ensures Billed(n.lines[i], n.bills) {
        var j :| 0 <= j < |db.lines| && db.lines[j] == n.lines[i];
        DeductKeepsBilled(db.lines[j], db.bills, orderId, FoundPrice(db.lines, orderId).value);
      }
    }
  }

  lemma ReturnChangesBill(db: Db, orderId: int, product: int, j: nat)
    requires UniqueBills(db) && Ledger(db) && Admissible(db, ReturnProduct(orderId, product)) && j < |db.bills|
    ensures var n := Apply(db, ReturnProduct(orderId, product));
      Adds(n.bills[j], n.lines)
      <==> RemovedTotal(db.lines, db.bills[j].orderId, product)
           == if db.bills[j].orderId == orderId then FoundPrice(db.lines, orderId).value else 0
  {
    assert Adds(db.bills[j], db.lines);
    KeepOthersTotals(db.lines, product, db.bills[j].orderId);
    assert db.bills[j].orderId == orderId <==> j == FindBill(db.bills, orderId);
  }

  /** Exactly when a return keeps the ledger: the code deducts the price of the order's first line
      and drops the product from every order, so what it drops has to match. */
  lemma {:induction false} ReturnKeepsLedgerIff(db: Db, orderId: int, product: int)
    requires UniqueBills(db) && Ledger(db) && Admissible(db, ReturnProduct(orderId, product))
    ensures Ledger(Apply(db, ReturnProduct(orderId, product))) <==> ReturnBalances(db, orderId, product)
  {
    var n := Apply(db, ReturnProduct(orderId, product));
    forall j | 0 <= j < |db.bills| { ReturnChangesBill(db, orderId, product, j); }
    if FindLine(db.lines, orderId) == |db.lines| {
      RemovesNothing(db.lines, orderId, product);
    } else if Ledger(n) {
      assert Adds(n.bills[FindBill(db.bills, orderId)], n.lines);
    }
    if Ledger(n) {
      forall k | 0 <= k < |db.bills| && db.bills[k].orderId != orderId ensures RemovedTotal(db.lines, db.bills[k].orderId, product) == 0 {
        assert Adds(n.bills[k], n.lines);
      }
    }
  }

  lemma {:induction false} RemovesNothing(ls: seq<Line>, orderId: int, product: int)
    requires forall i :: 0 <= i < |ls| && ls[i].orderId == orderId ==> ls[i].productId != product
    ensures RemovedTotal(ls, orderId, product) == 0
  {
    if ls != [] { RemovesNothing(ls[..|ls| - 1], orderId, product); }
  }

  lemma {:induction false} RemovesOne(ls: seq<Line>, k: nat, product: int)
    requires k < |ls| && ls[k].productId == product
    requires forall j :: 0 <= j < |ls| && j != k && ls[j].orderId == ls[k].orderId ==> ls[j].productId != product
    ensures RemovedTotal(ls, ls[k].orderId, product) == ls[k].totalPrice
  {
    var n := |ls| - 1;
    if k == n {
      RemovesNothing(ls[..n], ls[k].orderId, product);
    } else {
      RemovesOne(ls[..n], k, product);
    }
  }

  /** The return the menu has in mind: the product is the order's first line and nobody else, in
      this order or another, bought it. */
  lemma SingleLineReturnKeepsLedger(db: Db, orderId: int, product: int)
    requires UniqueBills(db) && Ledger(db) && Admissible(db, ReturnProduct(orderId, product))
    requires FindLine(db.lines, orderId) < |db.lines|
    requires forall j :: 0 <= j < |db.lines| ==> (db.lines[j].productId == product <==> j == FindLine(db.lines, orderId))
    ensures Ledger(Apply(db, ReturnProduct(orderId, product)))
  {
    RemovesOne(db.lines, FindLine(db.lines, orderId), product);
    forall o: int | o != orderId { RemovesNothing(db.lines, o, product); }
    ReturnKeepsLedgerIff(db, orderId, product);
  }

  lemma TotalsWithOneMore(ls: seq<Line>, l: Line, o: int, p: int)
    ensures LineTotal(ls + [l], o) == LineTotal(ls, o) + if l.orderId == o then l.totalPrice else 0
    ensures RemovedTotal(ls + [l], o, p) == RemovedTotal(ls, o, p) + if l.orderId == o && l.productId == p then l.totalPrice else 0
  {
    assert (ls + [l])[..|ls|] == ls;
  }

  function TwoLineOrder(c: Contact): Db {
    Db([Client(1001, c, "5")], [], [Bill(3000, 1001, c, 30)], [Line(3000, 2001, 1, c, 10), Line(3000, 2002, 1, c, 20)])
  }

  lemma TwoLineTotals(a: Line, b: Line, o: int, p: int)
    requires a.orderId == o && b.orderId == o && a.productId != p && b.productId == p
    ensures LineTotal([a, b], o) == a.totalPrice + b.totalPrice && RemovedTotal([a, b], o, p) == b.totalPrice
  {
    TotalsWithOneMore([], a, o, p);
    TotalsWithOneMore([a], b, o, p);
    assert [] + [a] == [a] && [a] + [b] == [a, b];
  }

  /** A return that breaks the ledger: the second line of a two-line order is sent back, and the
      first line's price is deducted. */
  lemma ReturnOfSecondLineBreaksLedger(c: Contact) returns (db: Db)
    ensures Books(db) && Admissible(db, ReturnProduct(3000, 2002))
    ensures !Ledger(Apply(db, ReturnProduct(3000, 2002)))
  {
    db := TwoLineOrder(c);
    TwoLineTotals(db.lines[0], db.lines[1], 3000, 2002);
    assert db.lines == [db.lines[0], db.lines[1]];
    assert db.bills[0].orderId == 3000;
    ReturnChangesBill(db, 3000, 2002, 0);
  }

  /** An accepted order for buyer 0 leaves a bill that is nobody's. */
  lemma OrderForNobodyBreaksBooks() returns (db: Db, c: Cmd)
    ensures Books(db) && Admissible(db, c) && PostsForNobody(db, c) && !Books(Apply(db, c))
  {
    db := Db([], [Product(2007, "Tea", 4001, 5, 12)], [], []);
    c := CompleteOrder(0, [Item(2007, 2, 12)], 3000);
    assert db.products[0].productId == 2007;
    OrderKeepsCopiesIff(db, c);
  }

  lemma BuyerFileKeepsCopies(db: Db, c: Cmd)
    requires c.EditNumber? || c.RegisterBuyer?
    ensures BillsMatch(db) ==> BillsMatch(Apply(db, c))
  {
    if BillsMatch(db) {
      forall k | 0 <= k < |db.bills| ensures ContactOf(Apply(db, c).buyers, db.bills[k].customerId) == Some(db.bills[k].contact) {
        var id := db.bills[k].customerId;
        if c.EditNumber? {
          SameIds(db.buyers, Apply(db, c).buyers, ClientId, id);
        } else {
          FoundStaysFound(db.buyers, Client(c.uuid, c.contact, ""), ClientId, id);
        }
      }
    }
  }

  lemma BillsStayUnique(db: Db, c: Cmd)
    requires UniqueBills(db) && Admissible(db, c)
    ensures UniqueBills(Apply(db, c))
  {
  }

  /** What holds of the books whether or not some bill is nobody's. */
  ghost predicate Accounts(db: Db) { UniqueBills(db) && Ledger(db) && LinesBilled(db) }

  /** One command keeps the bills unique and the lines billed, and keeps the ledger exactly when it is
      not an unbalanced return. */
  lemma {:induction false} ApplyKeepsAccounts(db: Db, c: Cmd)
    requires Accounts(db) && Admissible(db, c)
    ensures UniqueBills(Apply(db, c)) && LinesBilled(Apply(db, c)) && (Ledger(Apply(db, c)) <==> BalancedReturn(db, c))
  {
    BillsStayUnique(db, c);
    match c
    case CompleteOrder(_, _, _) => OrderBillsItsLines(db, c); OrderKeepsLedger(db, c);
    case EditContact(id, e) => EditKeepsCopies(db, id, e); EditKeepsLedger(db, id, e);
    case ReturnProduct(o, p) => ReturnKeepsCopies(db, o, p); ReturnKeepsLedgerIff(db, o, p);
    case _ => SameOrderTablesKeepAccounts(db, Apply(db, c));
  }

  lemma SameOrderTablesKeepAccounts(db: Db, n: Db)
    requires Accounts(db) && n.bills == db.bills && n.lines == db.lines
    ensures Accounts(n)
  {
  }

  /** One command keeps the books exactly when it is no unbalanced return and posts for somebody. */
  lemma {:induction false} ApplyKeepsBooks(db: Db, c: Cmd)
    requires Books(db) && Admissible(db, c)
    ensures Books(Apply(db, c)) <==> BalancedReturn(db, c) && !PostsForNobody(db, c)
  {
    ApplyKeepsAccounts(db, c);
    match c
    case CompleteOrder(_, _, _) => OrderKeepsCopiesIff(db, c);
    case EditContact(id, e) => EditKeepsCopies(db, id, e);
    case ReturnProduct(o, p) => ReturnKeepsCopies(db, o, p);
    case EditNumber(_, _) => BuyerFileKeepsCopies(db, c);
    case RegisterBuyer(_, _) => BuyerFileKeepsCopies(db, c);
    case _ => assert Apply(db, c).bills == db.bills && Apply(db, c).buyers == db.buyers;
  }

  // ---------------------------------------------------------------------------------------
  // Whole runs.

  /** Each command of the run is admissible, and balanced if a return, where it is applied. */
  ghost predicate GoodRun(db: Db, cs: seq<Cmd>) {
    cs == [] || (
      var before := cs[..|cs| - 1];
      && GoodRun(db, before)
      && Admissible(Replay(db, before), cs[|cs| - 1])
      && BalancedReturn(Replay(db, before), cs[|cs| - 1]))
  }

  /** Some command of the run posts for nobody. */
  ghost predicate SomePostsForNobody(db: Db, cs: seq<Cmd>) {
    cs != [] && (SomePostsForNobody(db, cs[..|cs| - 1]) || PostsForNobody(Replay(db, cs[..|cs| - 1]), cs[|cs| - 1]))
  }

  /** Some bill is nobody's. */
  ghost predicate NobodysBill(db: Db) {
    FindBuyer(db.buyers, 0) == |db.buyers| && exists k :: 0 <= k < |db.bills| && db.bills[k].customerId == 0
  }

  /** It stays: bills keep their customers, and nobody registers as buyer 0. */
  lemma NobodysBillStays(db: Db, c: Cmd)
    requires NobodysBill(db)
    ensures NobodysBill(Apply(db, c))
  {
    var n := Apply(db, c);
    var k :| 0 <= k < |db.bills| && db.bills[k].customerId == 0;
    assert n.bills[k].customerId == 0;
    match c
    case EditContact(id, e) => SameIds(db.buyers, EditBuyer(db.buyers, id, e), ClientId, 0);
    case EditNumber(id, phone) => SameIds(db.buyers, EditPhone(db.buyers, id, phone), ClientId, 0);
    case RegisterBuyer(uuid, contact) => NotFoundStaysNotFound(db.buyers, Client(uuid, contact, ""), ClientId, 0);
    case _ =>
  }

  lemma PostedForNobody(db: Db, c: Cmd)
    requires PostsForNobody(db, c)
    ensures NobodysBill(Apply(db, c))
  {
    assert Apply(db, c).bills[|db.bills|].customerId == 0;
  }

  /** Over whole runs of admissible commands and balanced returns: the accounts hold, and the books exactly
      when no command posted for nobody. */
  lemma {:induction false} RunKeepsBooksIff(db: Db, cs: seq<Cmd>)
    requires Books(db) && GoodRun(db, cs)
    ensures Accounts(Replay(db, cs))
    ensures Books(Replay(db, cs)) <==> !SomePostsForNobody(db, cs)
    ensures SomePostsForNobody(db, cs) ==> NobodysBill(Replay(db, cs))
  {
    if cs != [] {
      var before, c := cs[..|cs| - 1], cs[|cs| - 1];
      RunKeepsBooksIff(db, before);
      ApplyKeepsAccounts(Replay(db, before), c);
      if SomePostsForNobody(db, before) {
        NobodysBillStays(Replay(db, before), c);
      } else {
        ApplyKeepsBooks(Replay(db, before), c);
        if PostsForNobody(Replay(db, before), c) { PostedForNobody(Replay(db, before), c); }
      }
    }
  }
}
