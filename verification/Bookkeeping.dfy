/** The bookkeeping results for every interleaving, with conditions on the programs alone. */
module Bookkeeping {
  import opened Locks
  import opened Shop
  import opened Interleave
  import opened Serialisable
  import opened LockOrder
  import opened Books
  import opened Stock

  predicate TakesNoReturn(c: Cmd) { !c.ReturnProduct? }

  /** Orders with numbers of their own are admissible wherever they come. */
  lemma {:induction false} FreshIsGood(start: Db, cs: seq<Cmd>)
    requires FreshCommands(start, cs) && AllOf(cs, TakesNoReturn)
    ensures GoodRun(start, cs)
  {
    if cs != [] {
      var before, c := cs[..|cs| - 1], cs[|cs| - 1];
      FreshIsGood(start, before);
      if c.CompleteOrder? && HasBill(Replay(start, before), c.orderId) {
        ReplayBills(start, before, c.orderId);
      }
    }
  }

  /** Whatever is logged, returns included: the books balance at the end exactly when no logged order
      posted for nobody. */
  lemma {:induction false} BooksBalanceAfterGoodRuns(start: Db, progs: seq<seq<Section<Cmd>>>, sched: seq<nat>)
    requires Conforming(progs) && Runs(SystemStart(start, progs), sched) && AtEnd(Reach(SystemStart(start, progs), sched))
    requires Books.Books(start) && GoodRun(start, Commands(Reach(SystemStart(start, progs), sched).log))
    ensures var e := Reach(SystemStart(start, progs), sched);
      Books.Books(e.files) <==> !SomePostsForNobody(start, Commands(e.log))
  {
    EveryRunIsSerial(start, progs, sched);
    RunKeepsBooksIff(start, Commands(Reach(SystemStart(start, progs), sched).log));
  }

  predicate NamesSomebody(c: Cmd) { c.CompleteOrder? ==> c.buyerId != 0 }

  lemma {:induction false} NamedNeverNobody(start: Db, cs: seq<Cmd>)
    requires AllOf(cs, NamesSomebody)
    ensures !SomePostsForNobody(start, cs)
  {
    if cs != [] { NamedNeverNobody(start, cs[..|cs| - 1]); }
  }

  /** If the programs take no returns and every order has a number of its own, the books balance and the
      copies agree after an interleaving exactly when no accepted order was for nobody; and after every
      interleaving if no order names buyer 0. */
  lemma {:induction false} BooksBalanceAfterEveryRun(start: Db, progs: seq<seq<Section<Cmd>>>, sched: seq<nat>)
    requires Conforming(progs) && Runs(SystemStart(start, progs), sched) && AtEnd(Reach(SystemStart(start, progs), sched))
    requires Books.Books(start) && FreshOrders(start, progs) && AllJobs(progs, TakesNoReturn)
    ensures var e := Reach(SystemStart(start, progs), sched);
      && (Books.Books(e.files) <==> !SomePostsForNobody(start, Commands(e.log)))
      && (AllJobs(progs, NamesSomebody) ==> Books.Books(e.files))
  {
    var cs := Commands(Log(Reach(SystemStart(start, progs), sched), Commit));
    LoggedFresh(start, progs, Commit, sched);
    LoggedAll(start, progs, Commit, sched, TakesNoReturn);
    FreshIsGood(start, cs);
    BooksBalanceAfterGoodRuns(start, progs, sched);
    if AllJobs(progs, NamesSomebody) {
      LoggedAll(start, progs, Commit, sched, NamesSomebody);
      NamedNeverNobody(start, cs);
    }
  }

  /** If the programs only sell, on the shelf plus sold is the same after every interleaving, for every
      product: as long as the files hand the rows on (see `TextRuns`). */
  lemma {:induction false} StockIsConservedByEveryRun(start: Db, progs: seq<seq<Section<Cmd>>>, sched: seq<nat>, p: int)
    requires Conforming(progs) && Runs(SystemStart(start, progs), sched) && AtEnd(Reach(SystemStart(start, progs), sched))
    requires AllJobs(progs, SellsOnly)
    ensures var e := Reach(SystemStart(start, progs), sched).files;
      Books.Stock(e.products, p) + Sold(e.lines, p) == Books.Stock(start.products, p) + Sold(start.lines, p)
  {
    var cs := Commands(Log(Reach(SystemStart(start, progs), sched), Commit));
    EveryRunIsSerial(start, progs, sched);
    LoggedAll(start, progs, Commit, sched, SellsOnly);
    assert AllOf(cs, SellsOnly);
    RunConservesStock(start, cs, p);
  }
}
