/** The interleaved commands over the text files: every load parses what was printed, every store prints
    again. The results about rows are results about the files when nothing sells out. */
module TextRuns {
  import opened Locks
  import opened Shop
  import opened Serial
  import opened Interleave
  import opened Serialisable
  import opened TextFiles
  import TableText

  // ---------------------------------------------------------------------------------------
  // The machine.

  datatype TextSystem =
    TextSystem(sync: State<Cmd>, files: Files, locals: seq<Locals>, log: seq<(nat, Cmd)>, locked: seq<(nat, Cmd)>)

  /** The table that access `k` parses, if any. */
  ghost function LoadedBy(c: Cmd, k: nat, l: Locals): Option<Table> {
    match c
    case CompleteOrder(_, _, _) =>
      if k == 0 then Some(ProductInfo)
      else if !Accepts(c.items, l.tables.products) then None
      else if k == 1 then Some(CustomerInfo) else if k == 2 then Some(BillingInfo) else if k == 3 then Some(CustomerOrder) else None
    case EditContact(_, _) =>
      if k == 0 then Some(CustomerInfo) else if k == 2 then Some(BillingInfo) else if k == 4 then Some(CustomerOrder) else None
    case ReturnProduct(_, _) => if k == 0 then Some(CustomerOrder) else if k == 1 then Some(BillingInfo) else None
    case _ => if k == 0 then Some(LocksOf(c)[0]) else None
  }

  /** The table that access `k` prints, if any. */
  ghost function StoredBy(c: Cmd, k: nat, l: Locals): seq<Table> {
    match c
    case CompleteOrder(_, _, _) =>
      if !OrderGoesThrough(c, l) then []
      else if k == 4 then [ProductInfo] else if k == 5 then [BillingInfo] else if k == 6 then [CustomerOrder] else []
    case EditContact(_, _) =>
      if k == 1 then [CustomerInfo] else if k == 3 then [BillingInfo] else if k == 5 then [CustomerOrder] else []
    case ReturnProduct(orderId, _) =>
      if FoundPrice(l.tables.lines, orderId).None? then []
      else if k == 2 then [CustomerOrder] else if k == 3 then [BillingInfo] else []
    case _ => if k == 1 then LocksOf(c) else []
  }

  ghost function LoadedNow(d: System, i: nat): Option<Table>
    requires Shape(d) && i < |d.sync.threads|
  {
    if Pending(d.sync.threads[i]) then LoadedBy(Job(d, i), Done(d, i), d.locals[i]) else None
  }

  ghost function StoredNow(d: System, i: nat): seq<Table>
    requires Shape(d) && i < |d.sync.threads|
  {
    if Pending(d.sync.threads[i]) then StoredBy(Job(d, i), Done(d, i), d.locals[i]) else []
  }

  const NO_ROWS: Db := Db([], [], [], [])

  /** The rows of one file, the only one that is parsed; `None` when the parse would convert NULL. */
  function LoadOnly(f: Files, t: Option<Table>): Option<Db> {
    match t
    case Some(CustomerInfo) =>
      var cs := LoadTable(f.buyers, TableText.CLIENT_KINDS, ToClient);
      if cs.None? then None else Some(NO_ROWS.(buyers := cs.value))
    case Some(ProductInfo) =>
      var ps := LoadTable(f.products, TableText.PRODUCT_KINDS, ToProduct);
      if ps.None? then None else Some(NO_ROWS.(products := ps.value))
    case Some(BillingInfo) =>
      var bs := LoadTable(f.bills, TableText.BILL_KINDS, ToBill);
      if bs.None? then None else Some(NO_ROWS.(bills := bs.value))
    case Some(CustomerOrder) =>
      var ls := LoadTable(f.lines, TableText.LINE_KINDS, ToLine);
      if ls.None? then None else Some(NO_ROWS.(lines := ls.value))
    case _ => Some(NO_ROWS)
  }

  function WithRows(x: TextSystem, db: Db): System {
    System(x.sync, db, x.locals, x.log, x.locked)
  }

  ghost predicate TextCanStep(x: TextSystem, i: nat) {
    var d := WithRows(x, NO_ROWS);
    Shape(d) && CanStep(x.sync, i) && LoadOnly(x.files, LoadedNow(d, i)).Some?
  }

  ghost function TextStep(x: TextSystem, i: nat): TextSystem
    requires TextCanStep(x, i)
  {
    var d := WithRows(x, LoadOnly(x.files, LoadedNow(WithRows(x, NO_ROWS), i)).value);
    var n := DoStep(d, i);
    TextSystem(n.sync, StoreFiles(x.files, StoredNow(d, i), n.files), n.locals, n.log, n.locked)
  }

  ghost predicate TextRuns(x: TextSystem, sched: seq<nat>)
    decreases |sched|
  {
    sched == [] || (TextCanStep(x, sched[0]) && TextRuns(TextStep(x, sched[0]), sched[1..]))
  }

  ghost function TextReach(x: TextSystem, sched: seq<nat>): TextSystem
    requires TextRuns(x, sched)
    decreases |sched|
  {
    if sched == [] then x else TextReach(TextStep(x, sched[0]), sched[1..])
  }

  /** The same state with its files printed. */
  function Printed(d: System): TextSystem {
    TextSystem(d.sync, PrintDb(d.files), d.locals, d.log, d.locked)
  }

  lemma AccessStores(c: Cmd, k: nat, l: Locals, f: Db, t: Table)
    requires k < Accesses(c) && t !in StoredBy(c, k, l)
    ensures SameTable(t, Access(c, k, l, f).1, f)
  {
  }

  /** What an access stores, the command does not store again. */
  lemma StoreIsFinal(c: Cmd, k: nat, l: Locals, f: Db, t: Table)
    requires k < Accesses(c) && t in StoredBy(c, k, l)
    ensures t in LocksOf(c) && SameTable(t, Access(c, k, l, f).1, Finish(c, k, l, f))
  {
    StoredIsLocked(c, k, l, t);
    var (l1, f1) := Access(c, k, l, f);
    if k + 1 == Accesses(c) {
      assert Finish(c, k + 1, l1, f1) == f1;
    } else {
      NotStoredAgain(c, k, l, k + 1, l1, f1, t);
    }
  }

  lemma StoredIsLocked(c: Cmd, k: nat, l: Locals, t: Table)
    requires t in StoredBy(c, k, l)
    ensures t in LocksOf(c)
  {
    if |LocksOf(c)| > 1 { assert LocksOf(c)[0] in LocksOf(c) && LocksOf(c)[1] in LocksOf(c); }
    if |LocksOf(c)| > 2 { assert LocksOf(c)[2] in LocksOf(c); }
  }

  lemma {:induction false} NotStoredAgain(c: Cmd, k: nat, l: Locals, m: nat, l': Locals, f: Db, t: Table)
    requires t in StoredBy(c, k, l) && k < m <= Accesses(c)
    ensures SameTable(t, f, Finish(c, m, l', f))
    decreases Accesses(c) - m
  {
    if m < Accesses(c) {
      var (l1, f1) := Access(c, m, l', f);
      AccessStores(c, m, l', f, t);
      NotStoredAgain(c, k, l, m + 1, l1, f1, t);
    }
  }

  /** An access sees nothing but the table it parses. */
  lemma AccessSees(c: Cmd, k: nat, l: Locals, f: Db, g: Db)
    requires k < Accesses(c) && (LoadedBy(c, k, l).Some? ==> SameTable(LoadedBy(c, k, l).value, f, g))
    ensures Access(c, k, l, f).0 == Access(c, k, l, g).0
    ensures forall t :: t in StoredBy(c, k, l) ==> SameTable(t, Access(c, k, l, f).1, Access(c, k, l, g).1)
  {
  }

  // ---------------------------------------------------------------------------------------
  // As long as every state's files reload, the text machine does what the row machine does.

  lemma LoadsPrinted(db: Db, t: Option<Table>)
    requires Reloads(db)
    ensures LoadOnly(PrintDb(db), t).Some? && (t.Some? ==> SameTable(t.value, LoadOnly(PrintDb(db), t).value, db))
  {
  }

  lemma StepSees(d: System, g: Db, i: nat)
    requires Shape(d) && CanStep(d.sync, i)
    requires LoadedNow(d, i).Some? ==> SameTable(LoadedNow(d, i).value, g, d.files)
    ensures NextAccess(d.(files := g), i).0 == NextAccess(d, i).0
    ensures forall t :: t in StoredNow(d, i) ==> SameTable(t, NextAccess(d.(files := g), i).1, NextAccess(d, i).1)
  {
    if Pending(d.sync.threads[i]) {
      assert d.sync.threads[i].todo[0] == SectionOf(Job(d, i));
      AccessSees(Job(d, i), Done(d, i), d.locals[i], g, d.files);
    }
  }

  lemma StepStores(d: System, i: nat, t: Table)
    requires Shape(d) && CanStep(d.sync, i) && t !in StoredNow(d, i)
    ensures SameTable(t, NextAccess(d, i).1, d.files)
  {
    if Pending(d.sync.threads[i]) {
      assert d.sync.threads[i].todo[0] == SectionOf(Job(d, i));
      AccessStores(Job(d, i), Done(d, i), d.locals[i], d.files, t);
    }
  }

  /** A step from rows that agree on the table it parses prints what the step from all rows changes. */
  lemma StepFiles(d: System, g: Db, i: nat)
    requires Shape(d) && CanStep(d.sync, i)
    requires LoadedNow(d, i).Some? ==> SameTable(LoadedNow(d, i).value, g, d.files)
    ensures StoreFiles(PrintDb(d.files), StoredNow(d, i), NextAccess(d.(files := g), i).1) == PrintDb(NextAccess(d, i).1)
  {
    StepSees(d, g, i);
    forall t | t !in StoredNow(d, i) ensures SameTable(t, NextAccess(d, i).1, d.files) { StepStores(d, i, t); }
    StoresChanged(d.files, NextAccess(d, i).1, NextAccess(d.(files := g), i).1, StoredNow(d, i));
  }

  lemma {:induction false} StepPrints(d: System, i: nat)
    requires Shape(d) && CanStep(d.sync, i) && Reloads(d.files)
    ensures TextCanStep(Printed(d), i) && TextStep(Printed(d), i) == Printed(DoStep(d, i))
  {
    var x := Printed(d);
    LoadsPrinted(d.files, LoadedNow(d, i));
    assert LoadedNow(WithRows(x, NO_ROWS), i) == LoadedNow(d, i);
    var g := LoadOnly(x.files, LoadedNow(d, i)).value;
    var v := WithRows(x, g);
    assert v == d.(files := g);
    StepSees(d, g, i);
    StepFiles(d, g, i);
    SameStepElsewhere(d, v, i);
  }

  /** What a step does apart from the files does not depend on them, but for the copies. */
  lemma SameStepElsewhere(d: System, v: System, i: nat)
    requires Shape(d) && CanStep(d.sync, i) && v == d.(files := v.files) && NextAccess(v, i).0 == NextAccess(d, i).0
    ensures DoStep(v, i) == DoStep(d, i).(files := NextAccess(v, i).1)
    ensures StoredNow(v, i) == StoredNow(d, i)
  {
  }

  /** Printing what was stored, from rows that agree on that, prints all that changed. */
  lemma StoresChanged(f: Db, n: Db, seen: Db, tables: seq<Table>)
    requires forall t :: if t in tables then SameTable(t, seen, n) else SameTable(t, n, f)
    ensures StoreFiles(PrintDb(f), tables, seen) == PrintDb(n)
  {
    assert if CustomerInfo in tables then SameTable(CustomerInfo, seen, n) else SameTable(CustomerInfo, n, f);
    assert if ProductInfo in tables then SameTable(ProductInfo, seen, n) else SameTable(ProductInfo, n, f);
    assert if BillingInfo in tables then SameTable(BillingInfo, seen, n) else SameTable(BillingInfo, n, f);
    assert if CustomerOrder in tables then SameTable(CustomerOrder, seen, n) else SameTable(CustomerOrder, n, f);
  }

  /** Clean and storable rows. */
  ghost predicate FineDb(db: Db) { CleanDb(db) && StorableDb(db) }

  ghost predicate FineTable(t: Table, db: Db) {
    match t
    case CustomerInfo => StorableClients(db.buyers) && forall k :: 0 <= k < |db.buyers| ==> TableText.CleanClient(db.buyers[k])
    case SellerInfo => true
    case ProductInfo => StorableProducts(db.products) && forall k :: 0 <= k < |db.products| ==> TableText.CleanProduct(db.products[k])
    case BillingInfo => StorableBills(db.bills) && forall k :: 0 <= k < |db.bills| ==> TableText.CleanBill(db.bills[k])
    case CustomerOrder => StorableLines(db.lines) && forall k :: 0 <= k < |db.lines| ==> TableText.CleanLine(db.lines[k])
  }

  lemma FineByTable(db: Db)
    ensures FineDb(db) <==> forall t :: FineTable(t, db)
  {
    if forall t :: FineTable(t, db) {
      assert FineTable(CustomerInfo, db) && FineTable(ProductInfo, db) && FineTable(BillingInfo, db) && FineTable(CustomerOrder, db);
    }
  }

  /** A step stores nothing but tables that the committed commands leave. */
  lemma StepStaysFine(start: Db, d: System, i: nat)
    requires SysInv(start, d) && CanStep(d.sync, i) && FineDb(d.files) && FineDb(Committed(start, d))
    ensures FineDb(NextAccess(d, i).1)
  {
    var g := NextAccess(d, i).1;
    FineByTable(d.files);
    FineByTable(Committed(start, d));
    forall t ensures FineTable(t, g) {
      assert FineTable(t, d.files) && FineTable(t, Committed(start, d));
      if Pending(d.sync.threads[i]) { StepStoresCommitted(start, d, i, t); }
    }
    FineByTable(g);
  }

  lemma StepStoresCommitted(start: Db, d: System, i: nat, t: Table)
    requires SysInv(start, d) && CanStep(d.sync, i) && Pending(d.sync.threads[i])
    ensures SameTable(t, NextAccess(d, i).1, d.files) || SameTable(t, NextAccess(d, i).1, Committed(start, d))
  {
    var c, k, l := Job(d, i), Done(d, i), d.locals[i];
    assert d.sync.threads[i].todo[0] == SectionOf(c);
    if t !in StoredBy(c, k, l) {
      AccessStores(c, k, l, d.files, t);
    } else {
      StoreIsFinal(c, k, l, d.files, t);
      assert WillBe(start, d, i);
      assert SameTable(t, Outcome(d, i), Committed(start, d));
    }
  }

  ghost predicate FineAt(start: Db, cs: seq<Cmd>, n: nat)
    requires n <= |cs|
  {
    FineDb(Replay(start, cs[..n]))
  }

  /** The rows stay fine as the commands are run one at a time. */
  ghost predicate FineAlong(start: Db, cs: seq<Cmd>) {
    forall n :: 0 <= n <= |cs| ==> FineAt(start, cs, n)
  }

  lemma {:induction false} LogGrows(d: System, sched: seq<nat>)
    requires Runs(d, sched)
    ensures |d.log| <= |Reach(d, sched).log| && Commands(Reach(d, sched).log)[..|d.log|] == Commands(d.log)
    decreases |sched|
  {
    if sched != [] {
      StepLog(d, Commit, sched[0]);
      LogGrows(DoStep(d, sched[0]), sched[1..]);
      assert Commands(DoStep(d, sched[0]).log)[..|d.log|] == Commands(d.log);
    }
  }

  lemma {:induction false} RunPrints(start: Db, d: System, sched: seq<nat>)
    requires SysInv(start, d) && Runs(d, sched) && FineDb(d.files) && FineAlong(start, Commands(Reach(d, sched).log))
    ensures TextRuns(Printed(d), sched) && TextReach(Printed(d), sched) == Printed(Reach(d, sched))
    ensures FineDb(Reach(d, sched).files)
    decreases |sched|
  {
    if sched != [] {
      LogGrows(d, sched);
      assert FineAt(start, Commands(Reach(d, sched).log), |d.log|);
      ReloadsIffStorable(d.files);
      StepPrints(d, sched[0]);
      StepStaysFine(start, d, sched[0]);
      StepKeepsSysInv(start, d, sched[0]);
      RunPrints(start, DoStep(d, sched[0]), sched[1..]);
    }
  }

  /** If the commands in commit order keep the rows fine, the interleaving over text files is the one
      over rows, and its last files reload. */
  lemma {:induction false} TextRunsLikeRows(start: Db, progs: seq<seq<Section<Cmd>>>, sched: seq<nat>)
    requires Conforming(progs) && Runs(SystemStart(start, progs), sched)
    requires FineAlong(start, Commands(Reach(SystemStart(start, progs), sched).log))
    ensures var x, e := Printed(SystemStart(start, progs)), Reach(SystemStart(start, progs), sched);
      && TextRuns(x, sched) && TextReach(x, sched) == Printed(e)
      && LoadDb(TextReach(x, sched).files) == Some(e.files)
  {
    var d := SystemStart(start, progs);
    var e := Reach(d, sched);
    StartSysInv(start, progs);
    assert FineAt(start, Commands(e.log), 0) && Commands(e.log)[..0] == [];
    RunPrints(start, d, sched);
    ReloadsIffStorable(e.files);
  }

  // ---------------------------------------------------------------------------------------
  // And exactly when.

  /** The text machine shows the rows of the row machine at every step, each file reloading. */
  ghost predicate Follows(x: TextSystem, d: System, sched: seq<nat>)
    requires Runs(d, sched)
    decreases |sched|
  {
    && x == Printed(d) && LoadDb(x.files) == Some(d.files)
    && (sched == [] || (TextCanStep(x, sched[0]) && Follows(TextStep(x, sched[0]), DoStep(d, sched[0]), sched[1..])))
  }

  ghost predicate AllReload(d: System, sched: seq<nat>)
    requires Runs(d, sched)
    decreases |sched|
  {
    Reloads(d.files) && (sched == [] || AllReload(DoStep(d, sched[0]), sched[1..]))
  }

  lemma {:induction false} FollowsIffAllReload(d: System, sched: seq<nat>)
    requires Runs(d, sched)
    ensures Follows(Printed(d), d, sched) <==> AllReload(d, sched)
    decreases |sched|
  {
    if Reloads(d.files) && sched != [] {
      StepPrints(d, sched[0]);
      FollowsIffAllReload(DoStep(d, sched[0]), sched[1..]);
    }
  }

  ghost predicate FineTableAt(start: Db, cs: seq<Cmd>, n: nat, t: Table)
    requires n <= |cs|
  {
    FineTable(t, Replay(start, cs[..n]))
  }

  /** The table of this prefix of the log is fine, or it is the newest one and its command is still at
      work. */
  ghost predicate Settled(start: Db, d: System, n: nat, t: Table)
    requires n <= |d.log|
  {
    || FineTableAt(start, Commands(d.log), n, t)
    || (HasEffective(d.sync, t) && SameTable(t, Replay(start, Commands(d.log)[..n]), Committed(start, d)))
  }

  ghost predicate AllSettled(start: Db, d: System) {
    forall n, t :: 0 <= n <= |d.log| ==> Settled(start, d, n, t)
  }

  lemma SameTableFine(t: Table, a: Db, b: Db)
    requires SameTable(t, a, b) && FineTable(t, a)
    ensures FineTable(t, b)
  {
  }

  lemma ReloadedTableFine(t: Table, a: Db, b: Db)
    requires Reloads(a) && SameTable(t, a, b) && CleanDb(b)
    ensures FineTable(t, b)
  {
    match t
    case CustomerInfo => BuyersReloadIff(b.buyers);
    case SellerInfo =>
    case ProductInfo => ProductsReloadIff(b.products);
    case BillingInfo => BillsReloadIff(b.bills);
    case CustomerOrder => LinesReloadIff(b.lines);
  }

  /** A step that commits nothing: a command that finishes leaves its tables in the files, which reload. */
  lemma StepSettles(start: Db, d: System, i: nat, n: nat, t: Table)
    requires SysInv(start, d) && CanStep(d.sync, i) && SearchSucceeds(d, i) && !AtPoint(d.sync.threads[i], Commit)
    requires n <= |d.log| && Settled(start, d, n, t) && Reloads(DoStep(d, i).files) && CleanDb(Committed(start, d))
    ensures n <= |DoStep(d, i).log| && Settled(start, DoStep(d, i), n, t)
  {
    StepKeepsSysInv(start, d, i);
    StepLog(d, Commit, i);
    if !FineTableAt(start, Commands(d.log), n, t) && !HasEffective(DoStep(d, i).sync, t) {
      ReloadedTableFine(t, DoStep(d, i).files, Committed(start, d));
      SameTableFine(t, Committed(start, d), Replay(start, Commands(d.log)[..n]));
    }
  }

  /** A commit: its command is now at work on its tables, whose earlier versions are fine. */
  lemma CommitSettles(start: Db, d: System, i: nat, n: nat, t: Table)
    requires SysInv(start, d) && CanStep(d.sync, i) && SearchSucceeds(d, i) && AtPoint(d.sync.threads[i], Commit)
    requires AllSettled(start, d) && n <= |d.log| + 1
    ensures |DoStep(d, i).log| == |d.log| + 1 && Settled(start, DoStep(d, i), n, t)
  {
    Committing(start, d, i);
    StepLog(d, Commit, i);
    OneMoreCommand(d.log, i, Job(d, i), start);
    assert Settled(start, d, if n <= |d.log| then n else |d.log|, t);
    if n <= |d.log| { EarlierSettles(start, d, i, n, t); } else { LatestSettles(start, d, i, t); }
  }

  lemma EarlierSettles(start: Db, d: System, i: nat, n: nat, t: Table)
    requires SysInv(start, d) && CanStep(d.sync, i) && AtPoint(d.sync.threads[i], Commit)
    requires n <= |d.log| && Settled(start, d, n, t) && DoStep(d, i).log == d.log + [(i, Job(d, i))]
    ensures Settled(start, DoStep(d, i), n, t)
  {
    OneMoreCommand(d.log, i, Job(d, i), start);
    PrefixOfMore(Commands(d.log), Job(d, i), n);
    if t in LocksOf(Job(d, i)) { CommitLocked(start, d, i, n, t); } else { CommitElsewhere(start, d, i, t); }
  }

  lemma LatestSettles(start: Db, d: System, i: nat, t: Table)
    requires SysInv(start, d) && CanStep(d.sync, i) && AtPoint(d.sync.threads[i], Commit)
    requires Settled(start, d, |d.log|, t) && DoStep(d, i).log == d.log + [(i, Job(d, i))]
    ensures Settled(start, DoStep(d, i), |d.log| + 1, t)
  {
    var cs, more := Commands(d.log), Commands(DoStep(d, i).log);
    OneMoreCommand(d.log, i, Job(d, i), start);
    assert cs[..|d.log|] == cs && more[..|d.log| + 1] == more;
    if t in LocksOf(Job(d, i)) {
      CommitLocked(start, d, i, |d.log|, t);
    } else {
      CommitElsewhere(start, d, i, t);
      if FineTable(t, Committed(start, d)) { SameTableFine(t, Committed(start, d), Committed(start, DoStep(d, i))); }
    }
  }

  lemma PrefixOfMore(cs: seq<Cmd>, c: Cmd, m: nat)
    requires m <= |cs|
    ensures (cs + [c])[..m] == cs[..m] && cs[..|cs|] == cs && (cs + [c])[..|cs| + 1] == cs + [c]
  {
  }

  /** What it locks was nobody's work, so it was fine, and is its work now. */
  lemma CommitLocked(start: Db, d: System, i: nat, m: nat, t: Table)
    requires SysInv(start, d) && CanStep(d.sync, i) && AtPoint(d.sync.threads[i], Commit) && t in LocksOf(Job(d, i))
    requires m <= |d.log| && Settled(start, d, m, t)
    ensures HasEffective(DoStep(d, i).sync, t) && FineTableAt(start, Commands(d.log), m, t)
  {
    Committing(start, d, i);
    assert Effective(DoStep(d, i).sync.threads[i]);
  }

  /** What it does not lock stays as committed, and whose work it was. */
  lemma CommitElsewhere(start: Db, d: System, i: nat, t: Table)
    requires SysInv(start, d) && CanStep(d.sync, i) && AtPoint(d.sync.threads[i], Commit) && t !in LocksOf(Job(d, i))
    ensures SameTable(t, Committed(start, DoStep(d, i)), Committed(start, d))
    ensures HasEffective(d.sync, t) ==> HasEffective(DoStep(d, i).sync, t)
  {
    Committing(start, d, i);
    ApplyFrame(Job(d, i), Committed(start, d), t);
    if HasEffective(d.sync, t) { KeepsEffective(d, i, t); }
  }

  lemma KeepsEffective(d: System, i: nat, t: Table)
    requires Shape(d) && CanStep(d.sync, i) && AtPoint(d.sync.threads[i], Commit) && HasEffective(d.sync, t)
    ensures HasEffective(DoStep(d, i).sync, t)
  {
    assert d.sync.threads[i].todo[0] == SectionOf(Job(d, i));
    EffectiveStays(d.sync, i, t);
  }

  lemma {:induction false} RunSettles(start: Db, d: System, sched: seq<nat>)
    requires SysInv(start, d) && Runs(d, sched) && AllReload(d, sched) && AllSettled(start, d)
    requires CleanAlong(start, Commands(Reach(d, sched).log))
    ensures AllSettled(start, Reach(d, sched))
    decreases |sched|
  {
    if sched != [] {
      var i, e := sched[0], DoStep(d, sched[0]);
      LogGrows(d, sched);
      assert CleanAt(start, Commands(Reach(d, sched).log), |d.log|);
      StepKeepsSysInv(start, d, i);
      StepLog(d, Commit, i);
      forall n, t | 0 <= n <= |e.log| ensures Settled(start, e, n, t) {
        if AtPoint(d.sync.threads[i], Commit) { CommitSettles(start, d, i, n, t); } else { StepSettles(start, d, i, n, t); }
      }
      RunSettles(start, e, sched[1..]);
    }
  }

  lemma SettledIsFine(start: Db, e: System)
    requires AllSettled(start, e) && Finished(e.sync)
    ensures FineAlong(start, Commands(e.log))
  {
    forall n | 0 <= n <= |e.log| ensures FineAt(start, Commands(e.log), n) {
      forall t ensures FineTable(t, Replay(start, Commands(e.log)[..n])) { assert Settled(start, e, n, t); }
      FineByTable(Replay(start, Commands(e.log)[..n]));
    }
  }

  lemma {:induction false} FineKeeps(start: Db, cs: seq<Cmd>)
    requires CleanAlong(start, cs) && StorableDb(start)
    ensures FineAlong(start, cs) <==> AllKeep(start, cs)
  {
    if FineAlong(start, cs) {
      forall n | 0 <= n < |cs| ensures KeepsAt(start, cs, n) {
        assert FineAt(start, cs, n) && FineAt(start, cs, n + 1);
        PrefixOf(start, cs, n);
        StorableIffKeeps(Replay(start, cs[..n]), cs[n]);
      }
    }
    if AllKeep(start, cs) {
      forall n | 0 <= n <= |cs| ensures FineAt(start, cs, n) {
        assert CleanAt(start, cs, n);
        KeptIsPrinted(start, cs, n);
      }
    }
  }

  lemma {:induction false} FineReloads(start: Db, d: System, sched: seq<nat>)
    requires SysInv(start, d) && Runs(d, sched) && FineDb(d.files) && FineAlong(start, Commands(Reach(d, sched).log))
    ensures AllReload(d, sched)
    decreases |sched|
  {
    ReloadsIffStorable(d.files);
    if sched != [] {
      LogGrows(d, sched);
      assert FineAt(start, Commands(Reach(d, sched).log), |d.log|);
      StepStaysFine(start, d, sched[0]);
      StepKeepsSysInv(start, d, sched[0]);
      FineReloads(start, DoStep(d, sched[0]), sched[1..]);
    }
  }

  lemma StartSettled(start: Db, d: System)
    requires FineDb(start) && d.log == []
    ensures AllSettled(start, d)
  {
    FineByTable(start);
    assert Commands(d.log)[..0] == [];
    forall n, t | 0 <= n <= |d.log| ensures Settled(start, d, n, t) { assert FineTable(t, start); }
  }

  /** A complete interleaving over text files is the one over rows at every step if and only if every
      command, in commit order, keeps its files. */
  lemma {:induction false} TextFollowsIff(start: Db, progs: seq<seq<Section<Cmd>>>, sched: seq<nat>)
    requires Conforming(progs) && Runs(SystemStart(start, progs), sched) && AtEnd(Reach(SystemStart(start, progs), sched))
    requires StorableDb(start) && CleanAlong(start, Commands(Reach(SystemStart(start, progs), sched).log))
    ensures var d := SystemStart(start, progs);
      Follows(Printed(d), d, sched) <==> AllKeep(start, Commands(Reach(d, sched).log))
  {
    var d := SystemStart(start, progs);
    var cs := Commands(Reach(d, sched).log);
    StartSysInv(start, progs);
    EndIsFinished(start, progs, sched);
    assert CleanAt(start, cs, 0) && cs[..0] == [] && Commands(d.log) == [];
    FollowsIffAllReload(d, sched);
    FineKeeps(start, cs);
    if AllReload(d, sched) {
      StartSettled(start, d);
      RunSettles(start, d, sched);
      SettledIsFine(start, Reach(d, sched));
    } else if FineAlong(start, cs) {
      FineReloads(start, d, sched);
    }
  }
}
