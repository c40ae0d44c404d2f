/** What the callers of the shop have to respect for the results about rows to hold of the text files,
    whatever the interleaving: plain commands, and together no more ordered than is there. */
module TextPrograms {
  import opened Locks
  import opened Shop
  import opened Interleave
  import opened Serialisable
  import opened LockOrder
  import opened Bookkeeping
  import opened Books
  import opened Stock
  import opened TableText
  import opened TextFiles
  import opened TextStock
  import opened TextRuns

  // ---------------------------------------------------------------------------------------
  // Plain commands.

  ghost predicate CleanEdit(e: Edit) {
    match e
    case Name(f, l) => Clean(f) && Clean(l)
    case Address(s, c, st, z) => Clean(s) && Clean(c) && Clean(st) && Clean(z)
  }

  /** The numbers of an order fit an int. */
  predicate FittingOrder(c: Cmd)
    requires c.CompleteOrder?
  {
    && Int32(c.orderId) && Int32(OrderCost(c.items))
    && forall i :: 0 <= i < |c.items| ==> Int32(c.items[i].quantity) && Int32(c.items[i].quantity * c.items[i].itemCostPerUnit)
  }

  /** Orders of something for somebody, edits to something, prices that are not negative. The other commands either
      leave a file that does not reload, as a registration does, or change the shelves otherwise than
      by selling. */
  ghost predicate PlainCommand(c: Cmd) {
    match c
    case CompleteOrder(_, _, _) => GoodOrder(c) && FittingOrder(c) && NamesSomebody(c)
    case EditContact(_, e) => FullEdit(e) && CleanEdit(e)
    case EditNumber(_, phone) => phone != "" && Clean(phone)
    case ModifyPrice(_, _, v) => 0 <= v && Int32(v)
    case _ => false
  }

  lemma {:induction false} GoodItemsOrdered(items: seq<Item>, p: int)
    requires forall i :: 0 <= i < |items| ==> GoodItem(items[i])
    ensures Ordered(items, p) >= 0
  {
    if items != [] { GoodItemsOrdered(items[..|items| - 1], p); }
  }

  lemma SoldProductsFine(ps: seq<Product>, items: seq<Item>)
    requires StorableProducts(ps) && (forall k :: 0 <= k < |ps| ==> CleanProduct(ps[k]))
    requires Accepts(items, ps) && NothingSellsOut(ps, items) && forall i :: 0 <= i < |items| ==> GoodItem(items[i])
    ensures forall k :: 0 <= k < |ps| ==> CleanProduct(Sell(ps, items)[k])
  {
    SoldProductsStorableIff(ps, items);
    forall k | 0 <= k < |ps| ensures CleanProduct(Sell(ps, items)[k]) {
      SellRows(ps, items, k);
      GoodItemsOrdered(items, ps[k].productId);
      assert StorableProduct(Sell(ps, items)[k]) && StorableProduct(ps[k]) && CleanProduct(ps[k]);
    }
  }

  lemma NewLinesClean(db: Db, c: Cmd)
    requires FineDb(db) && c.CompleteOrder? && FittingOrder(c) && Accepts(c.items, db.products) && ContactOf(db.buyers, c.buyerId).Some?
    ensures forall k :: 0 <= k < |Apply(db, c).lines| ==> CleanLine(Apply(db, c).lines[k])
    ensures forall k :: 0 <= k < |Apply(db, c).bills| ==> CleanBill(Apply(db, c).bills[k])
  {
    var n := Apply(db, c);
    assert CleanClient(db.buyers[FindBuyer(db.buyers, c.buyerId)]);
    forall k | |db.lines| <= k < |n.lines| ensures CleanLine(n.lines[k]) {
      var i := k - |db.lines|;
      assert AcceptsLine(c.items[i], db.products);
      assert n.lines[k] == LineOf(c.orderId, ContactOf(db.buyers, c.buyerId).value, c.items[i]);
    }
  }

  lemma EditStaysClean(c: Contact, e: Edit)
    requires CleanContact(c) && CleanEdit(e)
    ensures CleanContact(Edited(c, e))
  {
  }

  /** A plain command that sells nothing out leaves fine rows. */
  lemma PlainStaysFine(db: Db, c: Cmd)
    requires FineDb(db) && PlainCommand(c) && (c.CompleteOrder? && Accepts(c.items, db.products) ==> NothingSellsOut(db.products, c.items))
    ensures FineDb(Apply(db, c))
  {
    StorableIffKeeps(db, c);
    if c.CompleteOrder? && Accepts(c.items, db.products) && ContactOf(db.buyers, c.buyerId).Some? {
      SoldProductsFine(db.products, c.items);
      NewLinesClean(db, c);
    }
    if c.EditContact? {
      forall k | 0 <= k < |db.buyers| { EditStaysClean(db.buyers[k].contact, c.edit); }
      forall k | 0 <= k < |db.bills| { EditStaysClean(db.bills[k].contact, c.edit); }
      forall k | 0 <= k < |db.lines| { EditStaysClean(db.lines[k].contact, c.edit); }
    }
  }

  // ---------------------------------------------------------------------------------------
  // Together no more than is there.

  /** How much of a product a command wants. */
  function Wanted(p: int): Cmd -> int {
    (c: Cmd) => if c.CompleteOrder? && Ordered(c.items, p) > 0 then Ordered(c.items, p) else 0
  }

  /** All programs together leave some of every product. */
  ghost predicate NeverSellsOut(start: Db, progs: seq<seq<Section<Cmd>>>) {
    forall k :: 0 <= k < |start.products| && k == FindProduct(start.products, start.products[k].productId)
      ==> ProgramsSum(progs, Wanted(start.products[k].productId)) < start.products[k].quantity
  }

  /** The same of a list of commands. */
  ghost predicate LeavesSome(start: Db, cs: seq<Cmd>) {
    forall k :: 0 <= k < |start.products| && k == FindProduct(start.products, start.products[k].productId)
      ==> Sum(cs, Wanted(start.products[k].productId)) < start.products[k].quantity
  }

  ghost predicate SameShelves(a: seq<Product>, b: seq<Product>) {
    |a| == |b| && forall k :: 0 <= k < |a| ==> a[k].productId == b[k].productId
  }

  /** What is still on the shelves after the commands. */
  ghost predicate ShelvesHold(start: Db, ps: seq<Product>, cs: seq<Cmd>) {
    && SameShelves(start.products, ps)
    && forall k :: 0 <= k < |ps| && k == FindProduct(ps, ps[k].productId)
         ==> ps[k].quantity >= start.products[k].quantity - Sum(cs, Wanted(ps[k].productId))
  }

  lemma {:induction false} PrefixWantsLess(cs: seq<Cmd>, n: nat, p: int)
    requires n < |cs|
    ensures Sum(cs[..n], Wanted(p)) + Wanted(p)(cs[n]) == Sum(cs[..n + 1], Wanted(p))
    ensures Sum(cs[..n + 1], Wanted(p)) <= Sum(cs, Wanted(p))
  {
    var w := Wanted(p);
    assert cs[..n + 1] == cs[..n] + [cs[n]];
    SumMore(cs[..n], cs[n], w);
    SumGrows(cs, n + 1, w);
  }

  lemma {:induction false} SumGrows(cs: seq<Cmd>, n: nat, w: Cmd -> int)
    requires n <= |cs| && forall c :: w(c) >= 0
    ensures Sum(cs[..n], w) <= Sum(cs, w)
  {
    if n < |cs| {
      SumGrows(cs[..|cs| - 1], n, w);
      assert cs[..|cs| - 1][..n] == cs[..n];
    } else {
      assert cs[..n] == cs;
    }
  }

  lemma ShelvesAllow(start: Db, ps: seq<Product>, cs: seq<Cmd>, n: nat)
    requires n < |cs| && LeavesSome(start, cs) && ShelvesHold(start, ps, cs[..n]) && cs[n].CompleteOrder?
    ensures NothingSellsOut(ps, cs[n].items)
  {
    forall k | 0 <= k < |ps| && k == FindProduct(ps, ps[k].productId) ensures Ordered(cs[n].items, ps[k].productId) < ps[k].quantity {
      SameIds(start.products, ps, ProductId, ps[k].productId);
      PrefixWantsLess(cs, n, ps[k].productId);
    }
  }

  lemma StepHolds(start: Db, db: Db, cs: seq<Cmd>, n: nat)
    requires n < |cs| && ShelvesHold(start, db.products, cs[..n]) && PlainCommand(cs[n])
    ensures ShelvesHold(start, Apply(db, cs[n]).products, cs[..n + 1])
  {
    var ps, c := db.products, cs[n];
    var m := Apply(db, c).products;
    assert SameShelves(ps, m) by {
      if c.CompleteOrder? { forall k | 0 <= k < |ps| { SellRows(ps, c.items, k); } }
    }
    forall k | 0 <= k < |m| && k == FindProduct(m, m[k].productId)
      ensures m[k].quantity >= start.products[k].quantity - Sum(cs[..n + 1], Wanted(m[k].productId))
    {
      SameIds(ps, m, ProductId, m[k].productId);
      PrefixWantsLess(cs, n, m[k].productId);
      if c.CompleteOrder? { SellRows(ps, c.items, k); }
    }
  }

  lemma {:induction false} PlainNext(start: Db, db: Db, cs: seq<Cmd>, n: nat)
    requires n < |cs| && FineDb(db) && PlainCommand(cs[n]) && LeavesSome(start, cs) && ShelvesHold(start, db.products, cs[..n])
    ensures FineDb(Apply(db, cs[n])) && ShelvesHold(start, Apply(db, cs[n]).products, cs[..n + 1])
  {
    if cs[n].CompleteOrder? { ShelvesAllow(start, db.products, cs, n); }
    PlainStaysFine(db, cs[n]);
    StepHolds(start, db, cs, n);
  }

  /** Plain commands that leave some of everything keep the rows fine, one after the other. */
  lemma {:induction false} PlainAlong(start: Db, cs: seq<Cmd>, n: nat)
    requires FineDb(start) && AllOf(cs, PlainCommand) && LeavesSome(start, cs) && n <= |cs|
    ensures FineAt(start, cs, n) && ShelvesHold(start, Replay(start, cs[..n]).products, cs[..n])
  {
    if n == 0 {
      assert cs[..0] == [];
    } else {
      PlainAlong(start, cs, n - 1);
      PlainNext(start, Replay(start, cs[..n - 1]), cs, n - 1);
      PrefixOf(start, cs, n - 1);
    }
  }

  lemma {:induction false} LoggedLeavesSome(start: Db, progs: seq<seq<Section<Cmd>>>, p: Point, sched: seq<nat>)
    requires Conforming(progs) && Runs(SystemStart(start, progs), sched) && NeverSellsOut(start, progs)
    ensures LeavesSome(start, Commands(Log(Reach(SystemStart(start, progs), sched), p)))
  {
    forall k | 0 <= k < |start.products| && k == FindProduct(start.products, start.products[k].productId)
      ensures Sum(Commands(Log(Reach(SystemStart(start, progs), sched), p)), Wanted(start.products[k].productId)) < start.products[k].quantity
    {
      LoggedSum(start, progs, p, sched, Wanted(start.products[k].productId));
    }
  }

  // ---------------------------------------------------------------------------------------
  // The theorem.

  lemma PlainSells(cs: seq<Cmd>)
    requires AllOf(cs, PlainCommand)
    ensures AllOf(cs, SellsOnly) && AllOf(cs, TakesNoReturn) && AllOf(cs, NamesSomebody)
  {
  }

  lemma {:induction false} PlainRunIsFine(start: Db, progs: seq<seq<Section<Cmd>>>, sched: seq<nat>)
    requires Conforming(progs) && Runs(SystemStart(start, progs), sched)
    requires FineDb(start) && AllJobs(progs, PlainCommand) && NeverSellsOut(start, progs)
    ensures var cs := Commands(Reach(SystemStart(start, progs), sched).log); AllOf(cs, PlainCommand) && FineAlong(start, cs)
  {
    var cs := Commands(Log(Reach(SystemStart(start, progs), sched), Commit));
    LoggedAll(start, progs, Commit, sched, PlainCommand);
    LoggedLeavesSome(start, progs, Commit, sched);
    forall n | 0 <= n <= |cs| ensures FineAt(start, cs, n) { PlainAlong(start, cs, n); }
  }

  lemma {:induction false} PlainReplayConserves(start: Db, cs: seq<Cmd>)
    requires AllOf(cs, PlainCommand)
    ensures SameStock(Replay(start, cs), start)
    ensures Books.Books(start) && FreshCommands(start, cs) ==> Books.Books(Replay(start, cs))
  {
    PlainSells(cs);
    forall p { RunConservesStock(start, cs, p); }
    if Books.Books(start) && FreshCommands(start, cs) {
      FreshIsGood(start, cs);
      NamedNeverNobody(start, cs);
      RunKeepsBooksIff(start, cs);
    }
  }

  /** Every interleaving of plain programs that leave some of every product: the text files are those of
      the rows at every step, the last ones reload, and they conserve the stock; and the books in them
      balance, if they did at the start and every order has a number of its own. */
  lemma {:induction false} TextFilesConserveStockAndBooks(start: Db, progs: seq<seq<Section<Cmd>>>, sched: seq<nat>)
    requires Conforming(progs) && Runs(SystemStart(start, progs), sched) && AtEnd(Reach(SystemStart(start, progs), sched))
    requires FineDb(start) && AllJobs(progs, PlainCommand) && NeverSellsOut(start, progs)
    ensures var x := Printed(SystemStart(start, progs));
      && TextRuns.TextRuns(x, sched) && LoadDb(TextReach(x, sched).files).Some?
      && SameStock(LoadDb(TextReach(x, sched).files).value, start)
      && (Books.Books(start) && FreshOrders(start, progs) ==> Books.Books(LoadDb(TextReach(x, sched).files).value))
  {
    PlainRunIsFine(start, progs, sched);
    TextRunsLikeRows(start, progs, sched);
    EveryRunIsSerial(start, progs, sched);
    PlainReplayConserves(start, Commands(Reach(SystemStart(start, progs), sched).log));
    if FreshOrders(start, progs) { LoggedFresh(start, progs, Commit, sched); }
  }

  /** The same with nothing asked of the run: if every order's buyer is in the file at the start, every
      schedule of the locks that gets to its end is one. */
  lemma {:induction false} EveryScheduleConservesStockAndBooks(start: Db, progs: seq<seq<Section<Cmd>>>, sched: seq<nat>)
    requires Conforming(progs) && Schedulable(Start(progs), sched) && Finished(After(Start(progs), sched))
    requires FineDb(start) && Books.Books(start)
    requires AllJobs(progs, PlainCommand) && NeverSellsOut(start, progs) && FreshOrders(start, progs)
    requires AllJobs(progs, BuyerIn(start.buyers))
    ensures var x := Printed(SystemStart(start, progs));
      && TextRuns.TextRuns(x, sched) && LoadDb(TextReach(x, sched).files).Some?
      && SameStock(LoadDb(TextReach(x, sched).files).value, start)
      && Books.Books(LoadDb(TextReach(x, sched).files).value)
  {
    KnownBuyersAlwaysInLockOrder(start, progs, sched);
    RunsOnLocks(SystemStart(start, progs), sched);
    assert AtEnd(Reach(SystemStart(start, progs), sched));
    TextFilesConserveStockAndBooks(start, progs, sched);
  }
}
