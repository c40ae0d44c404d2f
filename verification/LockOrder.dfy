/** The order of the lock points. It is a serial order too, unless an accepted order locks its tables
    before its buyer is registered and looks for the buyer after: `completeAnOrder` has no lock on
    the buyers. */
module LockOrder {
  import opened Locks
  import opened Shop
  import opened Serial
  import opened Interleave
  import opened Serialisable
  import Progress

  // ---------------------------------------------------------------------------------------
  // What replays keep.

  predicate HasBill(db: Db, orderId: int) {
    FindBill(db.bills, orderId) < |db.bills|
  }

  ghost predicate Posts(db: Db, c: Cmd, orderId: int) {
    c.CompleteOrder? && c.orderId == orderId && Accepts(c.items, db.products) && FoundContact(db.buyers, c.buyerId).Some?
  }

  lemma ApplyBills(db: Db, c: Cmd, orderId: int)
    ensures HasBill(Apply(db, c), orderId) <==> HasBill(db, orderId) || Posts(db, c, orderId)
  {
    match c
    case CompleteOrder(id, items, o) =>
      var n := Apply(db, c);
      assert forall k :: 0 <= k < |db.bills| ==> n.bills[k] == db.bills[k];
      if Posts(db, c, orderId) { assert n.bills[|db.bills|].orderId == orderId; }
    case EditContact(id, e) => SameIds(db.bills, EditBills(db.bills, id, e), BillId, orderId);
    case ReturnProduct(o, p) => SameIds(db.bills, Apply(db, c).bills, BillId, orderId);
    case _ =>
  }

  lemma ApplyBuyers(db: Db, c: Cmd, id: int)
    ensures ContactOf(Apply(db, c).buyers, id).Some? <==> ContactOf(db.buyers, id).Some? || (c.RegisterBuyer? && c.uuid == id)
  {
    match c
    case EditContact(other, e) => SameIds(db.buyers, EditBuyer(db.buyers, other, e), ClientId, id);
    case EditNumber(other, phone) => SameIds(db.buyers, EditPhone(db.buyers, other, phone), ClientId, id);
    case RegisterBuyer(uuid, contact) =>
      var n := Apply(db, c);
      assert forall k :: 0 <= k < |db.buyers| ==> n.buyers[k] == db.buyers[k];
      if uuid == id { assert n.buyers[|db.buyers|].uuid == id; }
    case _ =>
  }

  predicate Registers(cs: seq<Cmd>, id: int) {
    exists m :: 0 <= m < |cs| && cs[m].RegisterBuyer? && cs[m].uuid == id
  }

  lemma RegistersMore(cs: seq<Cmd>, c: Cmd, id: int)
    ensures Registers(cs + [c], id) <==> Registers(cs, id) || (c.RegisterBuyer? && c.uuid == id)
  {
    var more := cs + [c];
    assert more[|cs|] == c && forall m :: 0 <= m < |cs| ==> more[m] == cs[m];
    if m :| 0 <= m < |cs| && cs[m].RegisterBuyer? && cs[m].uuid == id { assert more[m].RegisterBuyer?; }
  }

  lemma {:induction false} ReplayBuyers(start: Db, cs: seq<Cmd>, id: int)
    ensures ContactOf(Replay(start, cs).buyers, id).Some? <==> ContactOf(start.buyers, id).Some? || Registers(cs, id)
  {
    if cs != [] {
      var before, c := cs[..|cs| - 1], cs[|cs| - 1];
      ReplayBuyers(start, before, id);
      ApplyBuyers(Replay(start, before), c, id);
      RegistersMore(before, c, id);
      assert before + [c] == cs;
    }
  }

  lemma {:induction false} ReplayBills(start: Db, cs: seq<Cmd>, orderId: int)
    requires HasBill(Replay(start, cs), orderId) && !HasBill(start, orderId)
    ensures exists m :: 0 <= m < |cs| && Posts(Replay(start, cs[..m]), cs[m], orderId)
  {
    if cs != [] {
      var before := cs[..|cs| - 1];
      ApplyBills(Replay(start, before), cs[|cs| - 1], orderId);
      if HasBill(Replay(start, before), orderId) {
        ReplayBills(start, before, orderId);
        var m :| 0 <= m < |before| && Posts(Replay(start, before[..m]), before[m], orderId);
        assert before[..m] == cs[..m];
      }
    }
  }

  /** The commands an order shares no lock with and that touch the buyers can trade places with it,
      unless it is accepted and only finds its buyer after them. */
  lemma OrderTradesPlaces(db: Db, o: Cmd, c: Cmd)
    requires o.CompleteOrder? && (c.EditNumber? || c.RegisterBuyer?) && OrderKnown(db, o)
    ensures Apply(Apply(db, o), c) == Apply(Apply(db, c), o) && OrderKnown(Apply(db, c), o)
  {
    if FoundContact(db.buyers, o.buyerId).Some? {
      match c
      case EditNumber(id, phone) => SameIds(db.buyers, EditPhone(db.buyers, id, phone), ClientId, o.buyerId);
      case RegisterBuyer(uuid, contact) => RegistrationKeepsFound(db.buyers, uuid, contact, o.buyerId);
    }
  }

  // ---------------------------------------------------------------------------------------
  // The condition.

  ghost predicate OrderKnown(db: Db, c: Cmd)
    requires c.CompleteOrder?
  {
    Accepts(c.items, db.products) ==> FoundContact(db.buyers, c.buyerId).Some?
  }

  /** An order that the shelves allow at its place in the list has its buyer in the file at the start or
      registered by an earlier command, or is for buyer 0, whose search ends anyhow. */
  ghost predicate KnownAt(start: Db, cs: seq<Cmd>, n: nat)
    requires n < |cs|
  {
    cs[n].CompleteOrder? && Accepts(cs[n].items, Replay(start, cs[..n]).products)
    ==> cs[n].buyerId == 0 || FindBuyer(start.buyers, cs[n].buyerId) < |start.buyers| || Registers(cs[..n], cs[n].buyerId)
  }

  ghost predicate KnownBuyers(start: Db, cs: seq<Cmd>) {
    forall n :: 0 <= n < |cs| ==> KnownAt(start, cs, n)
  }

  ghost predicate FailsAt(start: Db, cs: seq<Cmd>, n: nat) {
    n < |cs| && cs[n].CompleteOrder? && !OrderKnown(Replay(start, cs[..n]), cs[n])
  }

  lemma KnownBuyersIff(start: Db, cs: seq<Cmd>)
    ensures KnownBuyers(start, cs) <==> forall n: nat :: !FailsAt(start, cs, n)
  {
    forall n: nat | n < |cs| ensures KnownAt(start, cs, n) <==> !FailsAt(start, cs, n) {
      if cs[n].CompleteOrder? { ReplayBuyers(start, cs[..n], cs[n].buyerId); }
    }
  }

  lemma FailsStays(start: Db, cs: seq<Cmd>, c: Cmd, n: nat)
    ensures FailsAt(start, cs, n) ==> FailsAt(start, cs + [c], n)
    ensures FailsAt(start, cs + [c], n) ==> FailsAt(start, cs, n) || (n == |cs| && c.CompleteOrder? && !OrderKnown(Replay(start, cs), c))
  {
    if n < |cs| { assert (cs + [c])[..n] == cs[..n]; }
    if n == |cs| { assert (cs + [c])[..n] == cs; }
  }

  // ---------------------------------------------------------------------------------------
  // Along a run either the lock order is right, but for one order still looking, or some order has
  // failed the condition and its bill is on its way or posted.

  ghost function InLockOrder(start: Db, d: System): Db {
    Replay(start, Commands(d.locked))
  }

  ghost predicate Lags(start: Db, d: System, i: nat)
    requires i < |d.sync.threads| && Looking(d.sync.threads[i])
  {
    InLockOrder(start, d) == Apply(Committed(start, d), Job(d, i)) && OrderKnown(Committed(start, d), Job(d, i))
  }

  ghost predicate SomebodyLooks(d: System) {
    exists i :: 0 <= i < |d.sync.threads| && Looking(d.sync.threads[i])
  }

  ghost predicate LockInv(start: Db, d: System) {
    && (forall i :: 0 <= i < |d.sync.threads| && Looking(d.sync.threads[i]) ==> Lags(start, d, i))
    && (!SomebodyLooks(d) ==> InLockOrder(start, d) == Committed(start, d))
    && (forall n: nat :: !FailsAt(start, Commands(d.locked), n))
  }

  ghost predicate InFlight(start: Db, d: System, c: Cmd) {
    exists i :: 0 <= i < |d.sync.threads| && Looking(d.sync.threads[i]) && Job(d, i) == c && Accepts(c.items, Committed(start, d).products)
  }

  ghost predicate BrokenAt(start: Db, d: System, n: nat) {
    && FailsAt(start, Commands(d.locked), n)
    && (InFlight(start, d, d.locked[n].1) || HasBill(Committed(start, d), d.locked[n].1.orderId))
  }

  ghost predicate Broken(start: Db, d: System) {
    exists n: nat :: BrokenAt(start, d, n)
  }

  lemma OneLooks(d: System, i: nat, j: nat)
    requires Shape(d) && Inv(d.sync) && i < |d.sync.threads| && j < |d.sync.threads|
    requires Looking(d.sync.threads[i]) && Looking(d.sync.threads[j])
    ensures i == j
  {
    if i != j {
      assert LocksOf(Job(d, i))[1] == BillingInfo && LocksOf(Job(d, j))[1] == BillingInfo;
      PendingDisjoint(d, i, j, BillingInfo);
    }
  }

  lemma OnlyBuyersLocked(c: Cmd)
    ensures ProductInfo in LocksOf(c) || BillingInfo in LocksOf(c) || c.EditNumber? || c.RegisterBuyer?
  {
    if !c.EditNumber? && !c.RegisterBuyer? {
      assert LocksOf(c)[0] in LocksOf(c);
      if |LocksOf(c)| > 1 { assert LocksOf(c)[1] in LocksOf(c); }
    }
  }

  /** Nobody looks while an order gets its last lock, and only commands on the buyers do so while an
      order looks. */
  lemma LookingExcludes(d: System, i: nat, j: nat)
    requires Shape(d) && Inv(d.sync) && CanStep(d.sync, i) && AtPoint(d.sync.threads[i], LockPoint)
    requires j < |d.sync.threads| && Looking(d.sync.threads[j])
    ensures Job(d, i).EditNumber? || Job(d, i).RegisterBuyer?
  {
    var o := Job(d, j);
    assert LocksOf(o)[0] == ProductInfo && LocksOf(o)[1] == BillingInfo;
    LockPointExcludes(d, i, j, BillingInfo);
    LockPointExcludes(d, i, j, ProductInfo);
    OnlyBuyersLocked(Job(d, i));
  }

  /** How a step moves the two replays. */
  lemma StepReplays(start: Db, d: System, i: nat)
    requires Shape(d) && Inv(d.sync) && CanStep(d.sync, i)
    ensures Committed(start, DoStep(d, i))
         == if AtPoint(d.sync.threads[i], Commit) then Apply(Committed(start, d), Job(d, i)) else Committed(start, d)
    ensures InLockOrder(start, DoStep(d, i))
         == if AtPoint(d.sync.threads[i], LockPoint) then Apply(InLockOrder(start, d), Job(d, i)) else InLockOrder(start, d)
  {
    StepLog(d, Commit, i);
    StepLog(d, LockPoint, i);
    if AtPoint(d.sync.threads[i], Commit) { OneMoreCommand(d.log, i, Job(d, i), start); }
    if AtPoint(d.sync.threads[i], LockPoint) { OneMoreCommand(d.locked, i, Job(d, i), start); }
  }

  /** Who looks after a step. */
  lemma StepLooks(d: System, i: nat)
    requires Shape(d) && Inv(d.sync) && CanStep(d.sync, i)
    ensures var n := DoStep(d, i);
      && (forall j :: 0 <= j < |n.sync.threads| && j != i ==> n.sync.threads[j] == d.sync.threads[j])
      && (Looking(n.sync.threads[i]) <==>
            (AtPoint(d.sync.threads[i], LockPoint) && Job(d, i).CompleteOrder?)
            || (Looking(d.sync.threads[i]) && !AtPoint(d.sync.threads[i], Commit)))
      && (Looking(n.sync.threads[i]) ==> Job(n, i) == Job(d, i))
  {
    ShapeKept(d, i);
    var th := d.sync.threads[i];
    assert th.todo[0].Write? ==> th.todo[0] == SectionOf(th.todo[0].job);
  }

  lemma StepFails(start: Db, d: System, i: nat)
    requires Shape(d) && CanStep(d.sync, i)
    ensures forall n: nat :: FailsAt(start, Commands(d.locked), n) ==> FailsAt(start, Commands(DoStep(d, i).locked), n)
    ensures forall n: nat :: FailsAt(start, Commands(DoStep(d, i).locked), n) ==>
      || FailsAt(start, Commands(d.locked), n)
      || (n == |d.locked| && AtPoint(d.sync.threads[i], LockPoint) && Job(d, i).CompleteOrder? && !OrderKnown(InLockOrder(start, d), Job(d, i)))
    ensures forall n :: 0 <= n < |d.locked| ==> DoStep(d, i).locked[n] == d.locked[n]
  {
    StepLog(d, LockPoint, i);
    if AtPoint(d.sync.threads[i], LockPoint) {
      OneMoreCommand(d.locked, i, Job(d, i), start);
      forall n: nat { FailsStays(start, Commands(d.locked), Job(d, i), n); }
    }
  }

  lemma OrderLocksAlone(start: Db, d: System, i: nat)
    requires SysInv(start, d) && CanStep(d.sync, i) && AtPoint(d.sync.threads[i], LockPoint) && Job(d, i).CompleteOrder?
    requires LockInv(start, d)
    ensures InLockOrder(start, d) == Committed(start, d) && !SomebodyLooks(d)
    ensures Committed(start, DoStep(d, i)) == Committed(start, d)
    ensures InLockOrder(start, DoStep(d, i)) == Apply(Committed(start, d), Job(d, i))
    ensures Looking(DoStep(d, i).sync.threads[i]) && Job(DoStep(d, i), i) == Job(d, i)
  {
    if j :| 0 <= j < |d.sync.threads| && Looking(d.sync.threads[j]) { LookingExcludes(d, i, j); }
    StepReplays(start, d, i);
    StepLooks(d, i);
  }

  lemma OrderBreaks(start: Db, d: System, i: nat)
    requires SysInv(start, d) && CanStep(d.sync, i) && AtPoint(d.sync.threads[i], LockPoint) && Job(d, i).CompleteOrder?
    requires LockInv(start, d) && !OrderKnown(Committed(start, d), Job(d, i))
    ensures Broken(start, DoStep(d, i))
  {
    OrderLocksAlone(start, d, i);
    StepLog(d, LockPoint, i);
    OneMoreCommand(d.locked, i, Job(d, i), start);
    FailsNow(start, Commands(d.locked), Job(d, i));
    assert InFlight(start, DoStep(d, i), Job(d, i));
    assert BrokenAt(start, DoStep(d, i), |d.locked|);
  }

  /** An order gets its last lock. */
  lemma OrderLocks(start: Db, d: System, i: nat)
    requires SysInv(start, d) && CanStep(d.sync, i) && AtPoint(d.sync.threads[i], LockPoint) && Job(d, i).CompleteOrder?
    requires LockInv(start, d) && OrderKnown(Committed(start, d), Job(d, i))
    ensures LockInv(start, DoStep(d, i))
  {
    OrderLocksAlone(start, d, i);
    StepLooks(d, i);
    StepFails(start, d, i);
    assert Looking(DoStep(d, i).sync.threads[i]);
  }

  lemma FailsNow(start: Db, cs: seq<Cmd>, c: Cmd)
    requires c.CompleteOrder? && !OrderKnown(Replay(start, cs), c)
    ensures FailsAt(start, cs + [c], |cs|)
  {
    assert (cs + [c])[..|cs|] == cs;
  }

  /** Another command gets its last lock. */
  lemma OtherLocks(start: Db, d: System, i: nat)
    requires SysInv(start, d) && CanStep(d.sync, i) && AtPoint(d.sync.threads[i], LockPoint) && !Job(d, i).CompleteOrder?
    requires LockInv(start, d)
    ensures LockInv(start, DoStep(d, i))
  {
    var n, c := DoStep(d, i), Job(d, i);
    StepReplays(start, d, i);
    StepLooks(d, i);
    StepFails(start, d, i);
    forall j | 0 <= j < |n.sync.threads| && Looking(n.sync.threads[j]) ensures Lags(start, n, j) {
      assert Lags(start, d, j);
      LookingExcludes(d, i, j);
      OrderTradesPlaces(Committed(start, d), Job(d, j), c);
    }
    if j :| 0 <= j < |d.sync.threads| && Looking(d.sync.threads[j]) { assert Looking(n.sync.threads[j]); }
  }

  /** Any other step, the order's load of the buyers among them. */
  lemma NothingLocks(start: Db, d: System, i: nat)
    requires SysInv(start, d) && CanStep(d.sync, i) && !AtPoint(d.sync.threads[i], LockPoint)
    requires LockInv(start, d)
    ensures LockInv(start, DoStep(d, i))
  {
    var n := DoStep(d, i);
    StepReplays(start, d, i);
    StepLooks(d, i);
    StepFails(start, d, i);
    if AtPoint(d.sync.threads[i], Commit) { CommitLooks(d, i); }
    forall j | 0 <= j < |n.sync.threads| && Looking(n.sync.threads[j]) ensures Lags(start, n, j) {
      assert Lags(start, d, j);
      if AtPoint(d.sync.threads[i], Commit) { OneLooks(d, i, j); }
    }
    if j :| 0 <= j < |d.sync.threads| && Looking(d.sync.threads[j]) {
      assert Lags(start, d, j);
      if AtPoint(d.sync.threads[i], Commit) { OneLooks(d, i, j); } else { assert Looking(n.sync.threads[j]); }
    }
  }

  lemma CommitLooks(d: System, i: nat)
    requires Shape(d) && CanStep(d.sync, i) && AtPoint(d.sync.threads[i], Commit) && !AtPoint(d.sync.threads[i], LockPoint)
    ensures Looking(d.sync.threads[i])
  {
    assert d.sync.threads[i].todo[0] == SectionOf(Job(d, i));
  }

  /** The bill of an order that has failed the condition is posted once the order finds its buyer. */
  lemma BrokenStays(start: Db, d: System, i: nat)
    requires SysInv(start, d) && CanStep(d.sync, i) && SearchSucceeds(d, i) && Broken(start, d)
    ensures Broken(start, DoStep(d, i))
  {
    var n: nat :| BrokenAt(start, d, n);
    var c := d.locked[n].1;
    StepFails(start, d, i);
    if HasBill(Committed(start, d), c.orderId) { BillStays(start, d, i, c.orderId); } else { FlightGoesOn(start, d, i, c); }
    assert BrokenAt(start, DoStep(d, i), n);
  }

  lemma BillStays(start: Db, d: System, i: nat, orderId: int)
    requires Shape(d) && Inv(d.sync) && CanStep(d.sync, i) && HasBill(Committed(start, d), orderId)
    ensures HasBill(Committed(start, DoStep(d, i)), orderId)
  {
    StepReplays(start, d, i);
    if AtPoint(d.sync.threads[i], Commit) { ApplyBills(Committed(start, d), Job(d, i), orderId); }
  }

  lemma FlightGoesOn(start: Db, d: System, i: nat, c: Cmd)
    requires SysInv(start, d) && CanStep(d.sync, i) && SearchSucceeds(d, i) && c.CompleteOrder? && InFlight(start, d, c)
    ensures InFlight(start, DoStep(d, i), c) || HasBill(Committed(start, DoStep(d, i)), c.orderId)
  {
    var j :| 0 <= j < |d.sync.threads| && Looking(d.sync.threads[j]) && Job(d, j) == c && Accepts(c.items, Committed(start, d).products);
    StepReplays(start, d, i);
    StepLooks(d, i);
    if i == j {
      if AtPoint(d.sync.threads[i], Commit) {
        FlightLands(start, d, i);
        ApplyBills(Committed(start, d), c, c.orderId);
      }
    } else if AtPoint(d.sync.threads[i], Commit) {
      if AtPoint(d.sync.threads[i], LockPoint) {
        LookingExcludes(d, i, j);
      } else {
        CommitLooks(d, i);
        OneLooks(d, i, j);
      }
    }
    if i != j || !AtPoint(d.sync.threads[i], Commit) { assert Looking(DoStep(d, i).sync.threads[j]); }
  }

  lemma FlightLands(start: Db, d: System, i: nat)
    requires SysInv(start, d) && CanStep(d.sync, i) && SearchSucceeds(d, i) && Looking(d.sync.threads[i]) && AtPoint(d.sync.threads[i], Commit)
    requires Accepts(Job(d, i).items, Committed(start, d).products)
    ensures FoundContact(Committed(start, d).buyers, Job(d, i).buyerId).Some?
  {
    var c := Job(d, i);
    assert d.sync.threads[i].todo[0] == SectionOf(c) && Current(d, i) && LocksOf(c)[0] == ProductInfo;
    LookingSeesCommitted(start, d, i, ProductInfo);
    ContactCommitted(start, d, i);
  }

  lemma {:induction false} RunKeepsOrBreaks(start: Db, d: System, sched: seq<nat>)
    requires SysInv(start, d) && Runs(d, sched) && (LockInv(start, d) || Broken(start, d))
    ensures LockInv(start, Reach(d, sched)) || Broken(start, Reach(d, sched))
    decreases |sched|
  {
    if sched != [] {
      var i := sched[0];
      if Broken(start, d) { BrokenStays(start, d, i); }
      else if !AtPoint(d.sync.threads[i], LockPoint) { NothingLocks(start, d, i); }
      else if !Job(d, i).CompleteOrder? { OtherLocks(start, d, i); }
      else if OrderKnown(Committed(start, d), Job(d, i)) { OrderLocks(start, d, i); }
      else { OrderBreaks(start, d, i); }
      StepKeepsSysInv(start, d, i);
      RunKeepsOrBreaks(start, DoStep(d, i), sched[1..]);
    }
  }

  // ---------------------------------------------------------------------------------------
  // Order numbers.

  /** Every order has a number of its own, as `generateUID` is meant to see to. */
  ghost predicate FreshCommands(start: Db, cs: seq<Cmd>) {
    && (forall n :: 0 <= n < |cs| && cs[n].CompleteOrder? ==> !HasBill(start, cs[n].orderId))
    && (forall m, n :: 0 <= m < n < |cs| && cs[m].CompleteOrder? && cs[n].CompleteOrder? ==> cs[m].orderId != cs[n].orderId)
  }

  function OrdersNamed(orderId: int): Cmd -> int {
    (c: Cmd) => if c.CompleteOrder? && c.orderId == orderId then 1 else 0
  }

  /** No number is given to two orders, in one program or in several, or to an order and a bill of the
      start. */
  ghost predicate FreshOrders(start: Db, progs: seq<seq<Section<Cmd>>>) {
    forall o :: ProgramsSum(progs, OrdersNamed(o)) <= if HasBill(start, o) then 0 else 1
  }

  lemma {:induction false} SumHasBoth(cs: seq<Cmd>, m: nat, n: nat, w: Cmd -> int)
    requires m <= n < |cs| && forall c :: w(c) >= 0
    ensures Sum(cs, w) >= w(cs[n]) + if m < n then w(cs[m]) else 0
  {
    var before := cs[..|cs| - 1];
    if n < |before| {
      SumHasBoth(before, m, n, w);
    } else if m < n {
      SumHasBoth(before, m, m, w);
    } else {
      SumAtLeast(before, w);
    }
  }

  lemma {:induction false} LoggedFresh(start: Db, progs: seq<seq<Section<Cmd>>>, p: Point, sched: seq<nat>)
    requires Conforming(progs) && Runs(SystemStart(start, progs), sched) && FreshOrders(start, progs)
    ensures FreshCommands(start, Commands(Log(Reach(SystemStart(start, progs), sched), p)))
  {
    var cs := Commands(Log(Reach(SystemStart(start, progs), sched), p));
    forall m, n | 0 <= m <= n < |cs| && cs[m].CompleteOrder? && cs[n].CompleteOrder? && (m < n ==> cs[m].orderId == cs[n].orderId)
      ensures m == n && !HasBill(start, cs[n].orderId)
    {
      var w := OrdersNamed(cs[n].orderId);
      LoggedSum(start, progs, p, sched, w);
      SumHasBoth(cs, m, n, w);
    }
  }

  /** The bill of the failing order is not what the lock order leaves. */
  lemma FailingOrderPostsNothing(start: Db, cs: seq<Cmd>, n: nat)
    requires FreshCommands(start, cs) && FailsAt(start, cs, n)
    ensures !HasBill(Replay(start, cs), cs[n].orderId)
  {
    if HasBill(Replay(start, cs), cs[n].orderId) {
      ReplayBills(start, cs, cs[n].orderId);
    }
  }

  // ---------------------------------------------------------------------------------------
  // The theorems.

  lemma {:induction false} EndKeepsOrBreaks(start: Db, progs: seq<seq<Section<Cmd>>>, sched: seq<nat>)
    requires Conforming(progs) && Runs(SystemStart(start, progs), sched) && AtEnd(Reach(SystemStart(start, progs), sched))
    ensures var e := Reach(SystemStart(start, progs), sched);
      && (LockInv(start, e) || Broken(start, e))
      && !SomebodyLooks(e) && e.files == Committed(start, e)
  {
    var d := SystemStart(start, progs);
    StartSysInv(start, progs);
    assert Commands(d.log) == [] && Commands(d.locked) == [];
    RunKeepsOrBreaks(start, d, sched);
    EveryRunIsSerial(start, progs, sched);
  }

  lemma EndInLockOrderIff(start: Db, e: System)
    requires LockInv(start, e) || Broken(start, e)
    requires !SomebodyLooks(e) && e.files == Committed(start, e) && FreshCommands(start, Commands(e.locked))
    ensures e.files == InLockOrder(start, e) <==> KnownBuyers(start, Commands(e.locked))
  {
    KnownBuyersIff(start, Commands(e.locked));
    if Broken(start, e) {
      var n: nat :| BrokenAt(start, e, n);
      FailingOrderPostsNothing(start, Commands(e.locked), n);
    }
  }

  /** When the order of the lock points is a serial order: exactly when each order that the shelves
      allow has its buyer in the file at the start or registered earlier in that order. */
  lemma {:induction false} LockOrderIff(start: Db, progs: seq<seq<Section<Cmd>>>, sched: seq<nat>)
    requires Conforming(progs) && Runs(SystemStart(start, progs), sched) && AtEnd(Reach(SystemStart(start, progs), sched))
    requires FreshOrders(start, progs)
    ensures var e := Reach(SystemStart(start, progs), sched);
      e.files == Replay(start, Commands(e.locked)) <==> KnownBuyers(start, Commands(e.locked))
  {
    EndKeepsOrBreaks(start, progs, sched);
    LoggedFresh(start, progs, LockPoint, sched);
    EndInLockOrderIff(start, Reach(SystemStart(start, progs), sched));
  }

  // ---------------------------------------------------------------------------------------
  // What a caller can check: every order's buyer is in the file before the programs start, or is 0.

  function BuyerIn(buyers: seq<Client>): Cmd -> bool {
    (c: Cmd) => c.CompleteOrder? ==> FindBuyer(buyers, c.buyerId) < |buyers| || c.buyerId == 0
  }

  /** Every order still to run has its buyer in the file now. */
  ghost predicate AllKnown(d: System) {
    forall i, k :: 0 <= i < |d.sync.threads| && 0 <= k < |d.sync.threads[i].todo| && d.sync.threads[i].todo[k].Write?
      ==> BuyerIn(d.files.buyers)(d.sync.threads[i].todo[k].job)
  }

  lemma AccessKeepsBuyers(c: Cmd, k: nat, l: Locals, f: Db, id: int)
    requires k < Accesses(c) && CopiesCurrent(c, k, l, f) && FindBuyer(f.buyers, id) < |f.buyers|
    ensures var bs := Access(c, k, l, f).1.buyers; FindBuyer(bs, id) < |bs|
  {
    match c
    case EditContact(other, e) => SameIds(f.buyers, EditBuyer(f.buyers, other, e), ClientId, id);
    case EditNumber(other, phone) => SameIds(f.buyers, EditPhone(f.buyers, other, phone), ClientId, id);
    case RegisterBuyer(uuid, contact) => FoundStaysFound(f.buyers, Client(uuid, contact, ""), ClientId, id);
    case _ =>
  }

  lemma StepKeepsBuyers(start: Db, d: System, i: nat, id: int)
    requires SysInv(start, d) && CanStep(d.sync, i) && FindBuyer(d.files.buyers, id) < |d.files.buyers|
    ensures FindBuyer(NextAccess(d, i).1.buyers, id) < |NextAccess(d, i).1.buyers|
  {
    if Pending(d.sync.threads[i]) {
      assert d.sync.threads[i].todo[0] == SectionOf(Job(d, i)) && Current(d, i);
      AccessKeepsBuyers(Job(d, i), Done(d, i), d.locals[i], d.files, id);
    }
  }

  lemma KnownFinds(d: System, i: nat)
    requires Shape(d) && i < |d.sync.threads| && AllKnown(d)
    ensures SearchSucceeds(d, i)
  {
    if Looking(d.sync.threads[i]) { assert BuyerIn(d.files.buyers)(d.sync.threads[i].todo[0].job); }
  }

  lemma StepStaysKnown(start: Db, d: System, i: nat)
    requires SysInv(start, d) && CanStep(d.sync, i) && AllKnown(d)
    ensures AllKnown(DoStep(d, i))
  {
    var n := DoStep(d, i);
    forall j, k | 0 <= j < |n.sync.threads| && 0 <= k < |n.sync.threads[j].todo| && n.sync.threads[j].todo[k].Write?
      ensures BuyerIn(n.files.buyers)(n.sync.threads[j].todo[k].job)
    {
      var c := n.sync.threads[j].todo[k].job;
      var k' := k + |d.sync.threads[j].todo| - |n.sync.threads[j].todo|;
      assert d.sync.threads[j].todo[k'] == n.sync.threads[j].todo[k];
      if c.CompleteOrder? && c.buyerId != 0 { StepKeepsBuyers(start, d, i, c.buyerId); }
    }
  }

  lemma {:induction false} KnownNeverMisses(start: Db, d: System, sched: seq<nat>)
    requires SysInv(start, d) && AllKnown(d) && Schedulable(d.sync, sched)
    ensures Runs(d, sched)
    decreases |sched|
  {
    if sched != [] {
      KnownFinds(d, sched[0]);
      StepStaysKnown(start, d, sched[0]);
      StepKeepsSysInv(start, d, sched[0]);
      StepLog(d, Commit, sched[0]);
      KnownNeverMisses(start, DoStep(d, sched[0]), sched[1..]);
    }
  }

  lemma KnownFromStart(start: Db, cs: seq<Cmd>)
    requires AllOf(cs, BuyerIn(start.buyers))
    ensures KnownBuyers(start, cs)
  {
  }

  /** If every order's buyer is in the file at the start, or is 0, every schedule of the lock protocol is a run,
      and the files end up as in the order of the lock points. */
  lemma {:induction false} KnownBuyersAlwaysInLockOrder(start: Db, progs: seq<seq<Section<Cmd>>>, sched: seq<nat>)
    requires Conforming(progs) && AllJobs(progs, BuyerIn(start.buyers)) && Schedulable(Start(progs), sched)
    ensures Runs(SystemStart(start, progs), sched)
    ensures var e := Reach(SystemStart(start, progs), sched); AtEnd(e) ==> e.files == Replay(start, Commands(e.locked))
  {
    var d := SystemStart(start, progs);
    StartSysInv(start, progs);
    KnownNeverMisses(start, d, sched);
    if AtEnd(Reach(d, sched)) {
      LoggedAll(start, progs, LockPoint, sched, BuyerIn(start.buyers));
      KnownFromStart(start, Commands(Log(Reach(d, sched), LockPoint)));
      KnownBuyersIff(start, Commands(Log(Reach(d, sched), LockPoint)));
      EndKeepsOrBreaks(start, progs, sched);
    }
  }

  // ---------------------------------------------------------------------------------------
  // A run that the lock order does not explain.

  lemma {:induction false} Finishes(start: Db, d: System) returns (sched: seq<nat>)
    requires SysInv(start, d) && AllKnown(d)
    ensures Runs(d, sched) && AtEnd(Reach(d, sched))
    decreases Progress.Remaining(d.sync.threads)
  {
    if AtEnd(d) {
      sched := [];
    } else {
      var i: nat :| CanStep(d.sync, i);
      KnownFinds(d, i);
      StepStaysKnown(start, d, i);
      StepKeepsSysInv(start, d, i);
      Progress.StepLowers(d.sync, i);
      StepKeepsInv(d.sync, i);
      Progress.RemainingNonNegative(Step(d.sync, i).threads);
      StepLog(d, Commit, i);
      var rest := Finishes(start, DoStep(d, i));
      sched := [i] + rest;
      StepFirst(d, sched);
    }
  }

  lemma {:induction false} RunKeepsFailure(start: Db, d: System, sched: seq<nat>, n: nat)
    requires SysInv(start, d) && Runs(d, sched) && FailsAt(start, Commands(d.locked), n)
    ensures FailsAt(start, Commands(Reach(d, sched).locked), n)
    decreases |sched|
  {
    if sched != [] {
      StepFails(start, d, sched[0]);
      StepKeepsSysInv(start, d, sched[0]);
      RunKeepsFailure(start, DoStep(d, sched[0]), sched[1..], n);
    }
  }

  const NO_FILES := Db([], [], [], [])

  function EmptyOrder(): Cmd { CompleteOrder(7, [], 3000) }

  /** Thread 0 completes an order of buyer 7, whom thread 1 registers. */
  function OrderAndRegistration(c: Contact): seq<seq<Section<Cmd>>> {
    [[SectionOf(EmptyOrder())], [SectionOf(RegisterBuyer(7, c))]]
  }

  ghost predicate BetweenSync(s: State<Cmd>, c: Contact, a: nat, b: nat) {
    && s.threads == [Thread([SectionOf(EmptyOrder())], a), Thread([SectionOf(RegisterBuyer(7, c))], b)]
    && a <= 3 && b <= 3
    && (forall t: Table :: s.sync[t].wrt == if t in LocksOf(EmptyOrder())[..a] || (t == CustomerInfo && 1 <= b) then 0 else 1)
  }

  /** The two threads after `a` and `b` operations, before the order has read anything. */
  ghost predicate Between(d: System, c: Contact, a: nat, b: nat) {
    && BetweenSync(d.sync, c, a, b)
    && Commands(d.locked) == (if a == 3 then [EmptyOrder()] else []) + (if 1 <= b then [RegisterBuyer(7, c)] else [])
    && d.files == NO_FILES.(buyers := if b == 3 then [Client(7, c, "")] else [])
  }

  lemma OrderWaitsSync(s: State<Cmd>, c: Contact, a: nat)
    requires BetweenSync(s, c, a, 0) && a < 3
    ensures CanStep(s, 0) && BetweenSync(Step(s, 0), c, a + 1, 0)
  {
    assert LocksOf(EmptyOrder())[..a + 1] == LocksOf(EmptyOrder())[..a] + [LocksOf(EmptyOrder())[a]];
  }

  lemma OrderWaits(d: System, c: Contact, a: nat)
    requires Shape(d) && Between(d, c, a, 0) && a < 3
    ensures CanStep(d.sync, 0) && SearchSucceeds(d, 0) && Between(DoStep(d, 0), c, a + 1, 0)
  {
    OrderWaitsSync(d.sync, c, a);
    StepLog(d, LockPoint, 0);
    if a == 2 { OneMoreCommand(d.locked, 0, EmptyOrder(), NO_FILES); }
  }

  lemma RegistrationWaits(d: System, c: Contact)
    requires Shape(d) && Between(d, c, 3, 0)
    ensures CanStep(d.sync, 1) && SearchSucceeds(d, 1) && Between(DoStep(d, 1), c, 3, 1)
  {
    assert LocksOf(EmptyOrder())[..3] == LocksOf(EmptyOrder());
    StepLog(d, LockPoint, 1);
    OneMoreCommand(d.locked, 1, RegisterBuyer(7, c), NO_FILES);
  }

  lemma RegistrationWorks(d: System, c: Contact, b: nat)
    requires SysInv(NO_FILES, d) && Between(d, c, 3, b) && 1 <= b < 3
    ensures CanStep(d.sync, 1) && SearchSucceeds(d, 1) && Between(DoStep(d, 1), c, 3, b + 1)
  {
    assert Current(d, 1);
    StepLog(d, LockPoint, 1);
  }

  ghost predicate EndsBroken(d: System, sched: seq<nat>) {
    Runs(d, sched) && AtEnd(Reach(d, sched)) && FailsAt(NO_FILES, Commands(Reach(d, sched).locked), 0)
  }

  lemma BothLocked(d: System, c: Contact) returns (sched: seq<nat>)
    requires SysInv(NO_FILES, d) && Between(d, c, 3, 3)
    ensures EndsBroken(d, sched)
  {
    assert d.files.buyers[0].uuid == 7;
    sched := Finishes(NO_FILES, d);
    assert Commands(d.locked)[..0] == [];
    RunKeepsFailure(NO_FILES, d, sched, 0);
  }

  lemma OneStepBefore(d: System, i: nat, rest: seq<nat>)
    requires Shape(d) && CanStep(d.sync, i) && SearchSucceeds(d, i) && EndsBroken(DoStep(d, i), rest)
    ensures EndsBroken(d, [i] + rest)
  {
    StepFirst(d, [i] + rest);
  }

  /** The order gets its locks, the registration runs, and whatever comes then. */
  lemma {:induction false} OrderThenRegistration(d: System, c: Contact, a: nat, b: nat) returns (sched: seq<nat>)
    requires SysInv(NO_FILES, d) && Between(d, c, a, b) && (b > 0 ==> a == 3)
    ensures EndsBroken(d, sched)
    decreases 6 - a - b
  {
    if a < 3 {
      OrderWaits(d, c, a);
      StepKeepsSysInv(NO_FILES, d, 0);
      sched := OrderThenRegistration(DoStep(d, 0), c, a + 1, 0);
      OneStepBefore(d, 0, sched);
      sched := [0] + sched;
    } else if b < 3 {
      if b == 0 { RegistrationWaits(d, c); } else { RegistrationWorks(d, c, b); }
      StepKeepsSysInv(NO_FILES, d, 1);
      sched := OrderThenRegistration(DoStep(d, 1), c, 3, b + 1);
      OneStepBefore(d, 1, sched);
      sched := [1] + sched;
    } else {
      sched := BothLocked(d, c);
    }
  }

  /** A run whose files the order of the lock points does not explain. */
  lemma LateRegistrationBreaksLockOrder(c: Contact)
    ensures exists sched ::
      && Runs(SystemStart(NO_FILES, OrderAndRegistration(c)), sched)
      && AtEnd(Reach(SystemStart(NO_FILES, OrderAndRegistration(c)), sched))
      && Reach(SystemStart(NO_FILES, OrderAndRegistration(c)), sched).files
         != Replay(NO_FILES, Commands(Reach(SystemStart(NO_FILES, OrderAndRegistration(c)), sched).locked))
  {
    var progs := OrderAndRegistration(c);
    var d := SystemStart(NO_FILES, progs);
    StartSysInv(NO_FILES, progs);
    assert Commands(d.locked) == [];
    assert d.sync.threads == [Thread([SectionOf(EmptyOrder())], 0), Thread([SectionOf(RegisterBuyer(7, c))], 0)];
    var sched := OrderThenRegistration(d, c, 0, 0);
    OneOrderIsFresh(c);
    LockOrderIff(NO_FILES, progs, sched);
    KnownBuyersIff(NO_FILES, Commands(Reach(d, sched).locked));
  }

  lemma TwoSectionsSum(a: Section<Cmd>, b: Section<Cmd>, w: Cmd -> int)
    requires a.Write? && b.Write?
    ensures ProgramsSum([[a], [b]], w) == w(a.job) + w(b.job)
  {
    OneSectionSum(a, w);
    OneSectionSum(b, w);
    var progs, last := [[a], [b]], [[b]];
    assert progs[0] == [a] && progs[1..] == last && last[0] == [b] && last[1..] == [];
    assert ProgramsSum(last, w) == w(b.job);
  }

  lemma OneSectionSum(a: Section<Cmd>, w: Cmd -> int)
    requires a.Write?
    ensures ProgramSum([a], w) == w(a.job)
  {
    assert [a][1..] == [];
  }

  lemma OneOrderIsFresh(c: Contact)
    ensures Conforming(OrderAndRegistration(c)) && FreshOrders(NO_FILES, OrderAndRegistration(c))
  {
    forall o ensures ProgramsSum(OrderAndRegistration(c), OrdersNamed(o)) <= 1 {
      TwoSectionsSum(SectionOf(EmptyOrder()), SectionOf(RegisterBuyer(7, c)), OrdersNamed(o));
    }
  }
}
