/** The commands as sequences of file loads and stores, one access per step of the lock protocol. */
module Serial {
  import opened Locks
  import opened Shop

  function LocksOf(c: Cmd): (ts: seq<Table>)
    ensures ts != [] && forall i, j :: 0 <= i < j < |ts| ==> ts[i] != ts[j]
  {
    match c
    case CompleteOrder(_, _, _) => [ProductInfo, BillingInfo, CustomerOrder]
    case EditContact(_, _) => [CustomerInfo, BillingInfo, CustomerOrder]
    case EditNumber(_, _) => [CustomerInfo]
    case RegisterBuyer(_, _) => [CustomerInfo]
    case AddProduct(_) => [ProductInfo]
    case ModifyQuantity(_, _, _) => [ProductInfo]
    case ModifyPrice(_, _, _) => [ProductInfo]
    case ReturnProduct(_, _) => [BillingInfo, CustomerOrder]
  }

  /** File accesses between the last wait and the first post. */
  function Accesses(c: Cmd): nat {
    match c
    case CompleteOrder(_, _, _) => 7
    case EditContact(_, _) => 6
    case ReturnProduct(_, _) => 4
    case _ => 2
  }

  function SectionOf(c: Cmd): Section<Cmd> {
    Write(LocksOf(c), Accesses(c), LocksOf(c), c)
  }

  /** A thread's copies of the tables it loaded, and the buyer record an order found. */
  datatype Locals = Locals(tables: Db, contact: Option<Contact>)

  const NO_LOCALS := Locals(Db([], [], [], []), None)

  ghost predicate OrderGoesThrough(c: Cmd, l: Locals)
    requires c.CompleteOrder?
  {
    Accepts(c.items, l.tables.products) && l.contact.Some?
  }

  /** Access `k` of the command. `completeAnOrder` loads the buyers with no CustomerInfo lock; an
      order that is refused makes no further access, shown here as steps that do nothing. */
  ghost function Access(c: Cmd, k: nat, l: Locals, f: Db): (Locals, Db)
    requires k < Accesses(c)
  {
    match c
    case CompleteOrder(id, items, orderId) =>
      if k == 0 then (l.(tables := l.tables.(products := f.products)), f)
      else if !Accepts(items, l.tables.products) then (l, f)
      else if k == 1 then (l.(contact := FoundContact(f.buyers, id)), f)
      else if k == 2 then (l.(tables := l.tables.(bills := f.bills)), f)
      else if k == 3 then (l.(tables := l.tables.(lines := f.lines)), f)
      else if l.contact.None? then (l, f)
      else if k == 4 then (l, f.(products := Sell(l.tables.products, items)))
      else if k == 5 then (l, f.(bills := l.tables.bills + [Bill(orderId, id, l.contact.value, OrderCost(items))]))
      else (l, f.(lines := l.tables.lines + NewLines(orderId, l.contact.value, items)))
    case EditContact(id, e) =>
      if k == 0 then (l.(tables := l.tables.(buyers := f.buyers)), f)
      else if k == 1 then (l, f.(buyers := EditBuyer(l.tables.buyers, id, e)))
      else if k == 2 then (l.(tables := l.tables.(bills := f.bills)), f)
      else if k == 3 then (l, f.(bills := EditBills(l.tables.bills, id, e)))
      else if k == 4 then (l.(tables := l.tables.(lines := f.lines)), f)
      else (l, f.(lines := EditLines(l.tables.lines, l.tables.bills, id, e)))
    case EditNumber(id, phone) =>
      if k == 0 then (l.(tables := l.tables.(buyers := f.buyers)), f)
      else (l, f.(buyers := EditPhone(l.tables.buyers, id, phone)))
    case RegisterBuyer(uuid, contact) =>
      if k == 0 then (l.(tables := l.tables.(buyers := f.buyers)), f)
      else (l, f.(buyers := l.tables.buyers + [Client(uuid, contact, "")]))
    case AddProduct(p) =>
      if k == 0 then (l.(tables := l.tables.(products := f.products)), f)
      else (l, f.(products := l.tables.products + [p]))
    case ModifyQuantity(s, p, q) =>
      if k == 0 then (l.(tables := l.tables.(products := f.products)), f)
      else (l, f.(products := SetQuantity(l.tables.products, s, p, q)))
    case ModifyPrice(s, p, v) =>
      if k == 0 then (l.(tables := l.tables.(products := f.products)), f)
      else (l, f.(products := SetPrice(l.tables.products, s, p, v)))
    case ReturnProduct(orderId, p) =>
      if k == 0 then (l.(tables := l.tables.(lines := f.lines)), f)
      else if k == 1 then (l.(tables := l.tables.(bills := f.bills)), f)
      else
        var price := FoundPrice(l.tables.lines, orderId);
        if price.None? then (l, f)
        else if k == 2 then (l, f.(lines := KeepOthers(l.tables.lines, LineProduct, p)))
        else (l, f.(bills := Deduct(l.tables.bills, orderId, price.value)))
  }

  /** The files once the command has made its remaining accesses with nobody in between. */
  ghost function Finish(c: Cmd, k: nat, l: Locals, f: Db): Db
    requires k <= Accesses(c)
    decreases Accesses(c) - k
  {
    if k == Accesses(c) then f else var (l', f') := Access(c, k, l, f); Finish(c, k + 1, l', f')
  }

  /** Run with nobody in between, the accesses are the command. */
  lemma AloneIsApply(c: Cmd, f: Db)
    ensures Finish(c, 0, NO_LOCALS, f) == Apply(f, c)
  {
    var (l1, f1) := Access(c, 0, NO_LOCALS, f);
    var (l2, f2) := Access(c, 1, l1, f1);
    assert Finish(c, 0, NO_LOCALS, f) == Finish(c, 2, l2, f2);
    if Accesses(c) == 2 {
      assert Finish(c, 2, l2, f2) == f2;
    } else {
      var (l3, f3) := Access(c, 2, l2, f2);
      var (l4, f4) := Access(c, 3, l3, f3);
      assert Finish(c, 2, l2, f2) == Finish(c, 4, l4, f4);
      if Accesses(c) == 4 {
        assert Finish(c, 4, l4, f4) == f4;
      } else {
        var (l5, f5) := Access(c, 4, l4, f4);
        var (l6, f6) := Access(c, 5, l5, f5);
        assert Finish(c, 4, l4, f4) == Finish(c, 6, l6, f6);
        if Accesses(c) == 6 {
          assert Finish(c, 6, l6, f6) == f6;
        } else {
          assert Finish(c, 7, Access(c, 6, l6, f6).0, Access(c, 6, l6, f6).1) == Access(c, 6, l6, f6).1;
        }
      }
    }
  }

  ghost predicate SameTable(t: Table, a: Db, b: Db) {
    match t
    case CustomerInfo => a.buyers == b.buyers
    case SellerInfo => true
    case ProductInfo => a.products == b.products
    case BillingInfo => a.bills == b.bills
    case CustomerOrder => a.lines == b.lines
  }

  ghost predicate SameLocked(c: Cmd, a: Db, b: Db) {
    forall t :: t in LocksOf(c) ==> SameTable(t, a, b)
  }

  lemma AccessFrame(c: Cmd, k: nat, l: Locals, f: Db, t: Table)
    requires k < Accesses(c) && t !in LocksOf(c)
    ensures SameTable(t, Access(c, k, l, f).1, f)
  {
  }

  lemma AccessAgrees(c: Cmd, k: nat, l: Locals, f: Db, g: Db)
    requires k < Accesses(c) && SameLocked(c, f, g) && !(c.CompleteOrder? && k == 1)
    ensures Access(c, k, l, f).0 == Access(c, k, l, g).0
    ensures SameLocked(c, Access(c, k, l, f).1, Access(c, k, l, g).1)
  {
    assert LocksOf(c)[0] in LocksOf(c);
    if |LocksOf(c)| > 1 { assert LocksOf(c)[1] in LocksOf(c); }
    if |LocksOf(c)| > 2 { assert LocksOf(c)[2] in LocksOf(c); }
  }

  /** Once an order has looked its buyer up, what a command stores depends only on its locked tables. */
  lemma {:induction false} FinishAgrees(c: Cmd, k: nat, l: Locals, f: Db, g: Db)
    requires k <= Accesses(c) && SameLocked(c, f, g) && (c.CompleteOrder? ==> k >= 2)
    ensures SameLocked(c, Finish(c, k, l, f), Finish(c, k, l, g))
    decreases Accesses(c) - k
  {
    if k < Accesses(c) {
      AccessAgrees(c, k, l, f, g);
      FinishAgrees(c, k + 1, Access(c, k, l, f).0, Access(c, k, l, f).1, Access(c, k, l, g).1);
    }
  }

  /** What an order stores once it has looked. */
  lemma OrderFinish(c: Cmd, l: Locals, f: Db)
    requires c.CompleteOrder?
    ensures Finish(c, 2, l, f) == if !OrderGoesThrough(c, l) then f
      else Db(f.buyers, Sell(l.tables.products, c.items),
              f.bills + [Bill(c.orderId, c.buyerId, l.contact.value, OrderCost(c.items))],
              f.lines + NewLines(c.orderId, l.contact.value, c.items))
  {
    var (l3, f3) := Access(c, 2, l, f);
    var (l4, f4) := Access(c, 3, l3, f3);
    var (l5, f5) := Access(c, 4, l4, f4);
    var (l6, f6) := Access(c, 5, l5, f5);
    assert Finish(c, 2, l, f) == Finish(c, 4, l4, f4) == Finish(c, 6, l6, f6);
    assert Finish(c, 7, Access(c, 6, l6, f6).0, Access(c, 6, l6, f6).1) == Access(c, 6, l6, f6).1;
  }

  lemma ApplyFrame(c: Cmd, f: Db, t: Table)
    requires t !in LocksOf(c)
    ensures SameTable(t, Apply(f, c), f)
  {
  }
}
