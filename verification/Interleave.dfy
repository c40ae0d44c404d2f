/** The lock machine with the files attached, and its refinement to one command at a time. */
module Interleave {
  import opened Locks
  import opened Shop
  import opened Serial

  /** When a command counts: `LockPoint` is its last wait for a write lock. `Commit` is the same but for
      a completed order, which counts when it loads the buyers: it holds no lock on them. */
  datatype Point = LockPoint | Commit

  /** `log` and `locked` record who reached the commit point and the lock point, with which command. */
  datatype System = System(sync: State<Cmd>, files: Db, locals: seq<Locals>, log: seq<(nat, Cmd)>, locked: seq<(nat, Cmd)>)

  function Log(d: System, p: Point): seq<(nat, Cmd)> {
    if p == Commit then d.log else d.locked
  }

  predicate AtPoint(th: Thread<Cmd>, p: Point) {
    && th.todo != [] && th.todo[0].Write?
    && th.pos + 1 == |th.todo[0].waits| + if p == Commit && th.todo[0].job.CompleteOrder? then 2 else 0
  }

  /** Holds all its write locks and still has accesses to make. */
  predicate Pending(th: Thread<Cmd>) {
    th.todo != [] && th.todo[0].Write? && |th.todo[0].waits| <= th.pos < |th.todo[0].waits| + th.todo[0].work
  }

  /** An order that has its locks and has not loaded the buyers yet. */
  predicate Looking(th: Thread<Cmd>) {
    Pending(th) && th.todo[0].job.CompleteOrder? && th.pos < |th.todo[0].waits| + 2
  }

  /** Pending, and past its commit point. */
  predicate Effective(th: Thread<Cmd>) {
    Pending(th) && !Looking(th)
  }

  ghost predicate Conforms(th: Thread<Cmd>) {
    forall k :: 0 <= k < |th.todo| && th.todo[k].Write? ==> th.todo[k] == SectionOf(th.todo[k].job)
  }

  ghost predicate Shape(d: System) {
    && |d.locals| == |d.sync.threads|
    && forall i :: 0 <= i < |d.sync.threads| ==> Conforms(d.sync.threads[i])
  }

  function Job(d: System, i: nat): Cmd
    requires i < |d.sync.threads| && d.sync.threads[i].todo != [] && d.sync.threads[i].todo[0].Write?
  {
    d.sync.threads[i].todo[0].job
  }

  /** Number of accesses the pending thread has made. */
  function Done(d: System, i: nat): nat
    requires i < |d.sync.threads| && Pending(d.sync.threads[i])
  {
    d.sync.threads[i].pos - |d.sync.threads[i].todo[0].waits|
  }

  /** The access a step of the thread makes, if it makes one. */
  ghost function NextAccess(d: System, i: nat): (Locals, Db)
    requires Shape(d) && i < |d.sync.threads|
  {
    if Pending(d.sync.threads[i]) then
      assert d.sync.threads[i].todo[0] == SectionOf(Job(d, i));
      Access(Job(d, i), Done(d, i), d.locals[i], d.files)
    else
      (if AtPoint(d.sync.threads[i], LockPoint) then NO_LOCALS else d.locals[i], d.files)
  }

  function Logged(log: seq<(nat, Cmd)>, d: System, i: nat, p: Point): seq<(nat, Cmd)>
    requires i < |d.sync.threads|
  {
    if AtPoint(d.sync.threads[i], p) then log + [(i, Job(d, i))] else log
  }

  ghost function DoStep(d: System, i: nat): System
    requires Shape(d) && CanStep(d.sync, i)
  {
    System(Step(d.sync, i), NextAccess(d, i).1, d.locals[i := NextAccess(d, i).0],
           Logged(d.log, d, i, Commit), Logged(d.locked, d, i, LockPoint))
  }

  /** The search for the buyer of an accepted order has no other end than a row with the id; for id 0
      the zero row after the table is one. */
  ghost predicate SearchSucceeds(d: System, i: nat)
    requires Shape(d) && i < |d.sync.threads|
  {
    Looking(d.sync.threads[i]) && AtPoint(d.sync.threads[i], Commit) && Accepts(Job(d, i).items, d.locals[i].tables.products)
    ==> FoundContact(d.files.buyers, Job(d, i).buyerId).Some?
  }

  ghost predicate Runs(d: System, sched: seq<nat>)
    decreases |sched|
  {
    sched == [] ||
    (Shape(d) && CanStep(d.sync, sched[0]) && SearchSucceeds(d, sched[0]) && Runs(DoStep(d, sched[0]), sched[1..]))
  }

  ghost function Reach(d: System, sched: seq<nat>): System
    requires Runs(d, sched)
    decreases |sched|
  {
    if sched == [] then d else Reach(DoStep(d, sched[0]), sched[1..])
  }

  function Commands(log: seq<(nat, Cmd)>): seq<Cmd> {
    seq(|log|, k requires 0 <= k < |log| => log[k].1)
  }

  lemma OneMoreCommand(log: seq<(nat, Cmd)>, i: nat, c: Cmd, start: Db)
    ensures Commands(log + [(i, c)]) == Commands(log) + [c]
    ensures Replay(start, Commands(log + [(i, c)])) == Apply(Replay(start, Commands(log)), c)
  {
    assert (Commands(log) + [c])[..|log|] == Commands(log);
  }

  /** The files after the committed commands, one at a time. */
  ghost function Committed(start: Db, d: System): Db {
    Replay(start, Commands(d.log))
  }

  /** What the pending command's tables will hold if nobody interferes. */
  ghost function Outcome(d: System, i: nat): Db
    requires Shape(d) && i < |d.sync.threads| && Pending(d.sync.threads[i])
  {
    assert d.sync.threads[i].todo[0] == SectionOf(Job(d, i));
    Finish(Job(d, i), Done(d, i), d.locals[i], d.files)
  }

  ghost predicate HasEffective(s: State<Cmd>, t: Table) {
    exists i :: 0 <= i < |s.threads| && Effective(s.threads[i]) && t in LocksOf(s.threads[i].todo[0].job)
  }

  /** What the loads have copied is still what the file holds, until it is stored over. */
  ghost predicate CopiesCurrent(c: Cmd, k: nat, l: Locals, f: Db) {
    && ((c.EditNumber? || c.RegisterBuyer? || c.EditContact?) && k == 1 ==> l.tables.buyers == f.buyers)
    && ((c.AddProduct? || c.ModifyQuantity? || c.ModifyPrice?) && k == 1 ==> l.tables.products == f.products)
    && (c.CompleteOrder? && 1 <= k <= 4 ==> l.tables.products == f.products)
    && (c.CompleteOrder? && k <= 1 ==> l.contact == None)
    && (c.CompleteOrder? && k >= 2 && l.contact.Some? ==> l.contact == FoundContact(f.buyers, c.buyerId))
  }

  ghost predicate Current(d: System, i: nat)
    requires Shape(d) && i < |d.sync.threads| && Pending(d.sync.threads[i])
  {
    CopiesCurrent(Job(d, i), Done(d, i), d.locals[i], d.files)
  }

  ghost predicate WillBe(start: Db, d: System, i: nat)
    requires Shape(d) && i < |d.sync.threads| && Pending(d.sync.threads[i])
  {
    SameLocked(Job(d, i), Outcome(d, i), Committed(start, d))
  }

  ghost predicate SysInv(start: Db, d: System) {
    && Shape(d) && Inv(d.sync)
    && (forall i :: 0 <= i < |d.sync.threads| && Pending(d.sync.threads[i]) ==> Current(d, i))
    && (forall i :: 0 <= i < |d.sync.threads| && Effective(d.sync.threads[i]) ==> WillBe(start, d, i))
    && (forall t :: !HasEffective(d.sync, t) ==> SameTable(t, d.files, Committed(start, d)))
  }

  // ---------------------------------------------------------------------------------------
  // Who can be pending together.

  lemma PendingHolds(d: System, i: nat, t: Table)
    requires Shape(d) && i < |d.sync.threads| && Pending(d.sync.threads[i]) && t in LocksOf(Job(d, i))
    ensures Plays(d.sync.threads[i], Writes, t)
  {
  }

  /** Two pending commands have no locked table in common. */
  lemma PendingDisjoint(d: System, i: nat, j: nat, t: Table)
    requires Shape(d) && Inv(d.sync) && i < |d.sync.threads| && j < |d.sync.threads| && i != j
    requires Pending(d.sync.threads[i]) && Pending(d.sync.threads[j])
    ensures !(t in LocksOf(Job(d, i)) && t in LocksOf(Job(d, j)))
  {
    if t in LocksOf(Job(d, i)) && t in LocksOf(Job(d, j)) {
      PendingHolds(d, i, t);
      PendingHolds(d, j, t);
      InvExcludesWriters(d.sync, t);
    }
  }

  lemma ShapeKept(d: System, i: nat)
    requires Shape(d) && Inv(d.sync) && CanStep(d.sync, i)
    ensures Shape(DoStep(d, i)) && Inv(Step(d.sync, i))
    ensures Pending(d.sync.threads[i].Next()) <==>
      AtPoint(d.sync.threads[i], LockPoint)
      || (Pending(d.sync.threads[i]) && d.sync.threads[i].pos + 1 < |d.sync.threads[i].todo[0].waits| + d.sync.threads[i].todo[0].work)
    ensures Pending(d.sync.threads[i].Next()) ==> d.sync.threads[i].Next().todo == d.sync.threads[i].todo
  {
    StepKeepsInv(d.sync, i);
    var th := d.sync.threads[i];
    assert th.todo[0].Write? ==> th.todo[0] == SectionOf(th.todo[0].job);
  }

  /** A command at its lock point shares no lock with a pending one. */
  lemma LockPointExcludes(d: System, i: nat, j: nat, t: Table)
    requires Shape(d) && Inv(d.sync) && CanStep(d.sync, i) && AtPoint(d.sync.threads[i], LockPoint)
    requires j < |d.sync.threads| && Pending(d.sync.threads[j])
    ensures !(t in LocksOf(Job(d, i)) && t in LocksOf(Job(d, j)))
  {
    if t in LocksOf(Job(d, i)) && t in LocksOf(Job(d, j)) {
      var n := DoStep(d, i);
      ShapeKept(d, i);
      assert d.sync.threads[i].todo[0] == SectionOf(Job(d, i));
      PendingDisjoint(n, i, j, t);
    }
  }

  lemma EffectiveStays(s: State<Cmd>, i: nat, t: Table)
    requires CanStep(s, i) && HasEffective(s, t)
    requires Effective(s.threads[i]) ==> t !in LocksOf(s.threads[i].todo[0].job)
    ensures HasEffective(Step(s, i), t)
  {
    var j :| 0 <= j < |s.threads| && Effective(s.threads[j]) && t in LocksOf(s.threads[j].todo[0].job);
    assert Step(s, i).threads[j] == s.threads[j];
  }

  /** The tables of an order that is still looking are as committed. */
  lemma LookingSeesCommitted(start: Db, d: System, i: nat, t: Table)
    requires SysInv(start, d) && i < |d.sync.threads| && Looking(d.sync.threads[i]) && t in LocksOf(Job(d, i))
    ensures SameTable(t, d.files, Committed(start, d))
  {
    if HasEffective(d.sync, t) {
      var j :| 0 <= j < |d.sync.threads| && Effective(d.sync.threads[j]) && t in LocksOf(Job(d, j));
      PendingDisjoint(d, i, j, t);
    }
  }

  // ---------------------------------------------------------------------------------------
  // The unlocked read.

  /** No command that shares no lock with an order changes the name and address of a known buyer:
      the only ones that may touch the buyer file meanwhile edit a number or register a buyer. */
  lemma AccessKeepsContact(c: Cmd, k: nat, l: Locals, f: Db, id: int)
    requires k < Accesses(c) && CustomerOrder !in LocksOf(c)
    requires CopiesCurrent(c, k, l, f) && FoundContact(f.buyers, id).Some?
    ensures FoundContact(Access(c, k, l, f).1.buyers, id) == FoundContact(f.buyers, id)
  {
    match c
    case EditNumber(other, phone) => SameIds(f.buyers, EditPhone(f.buyers, other, phone), ClientId, id);
    case RegisterBuyer(uuid, contact) => RegistrationKeepsFound(f.buyers, uuid, contact, id);
    case _ =>
  }

  lemma AccessStaysCurrent(c: Cmd, k: nat, l: Locals, f: Db)
    requires k < Accesses(c) && CopiesCurrent(c, k, l, f)
    ensures k + 1 < Accesses(c) ==> CopiesCurrent(c, k + 1, Access(c, k, l, f).0, Access(c, k, l, f).1)
  {
  }

  lemma {:induction false} FinishKeepsContact(c: Cmd, k: nat, l: Locals, f: Db, id: int)
    requires k <= Accesses(c) && CustomerOrder !in LocksOf(c)
    requires k < Accesses(c) ==> CopiesCurrent(c, k, l, f)
    requires FoundContact(f.buyers, id).Some?
    ensures FoundContact(Finish(c, k, l, f).buyers, id) == FoundContact(f.buyers, id)
    decreases Accesses(c) - k
  {
    if k < Accesses(c) {
      AccessKeepsContact(c, k, l, f, id);
      AccessStaysCurrent(c, k, l, f);
      FinishKeepsContact(c, k + 1, Access(c, k, l, f).0, Access(c, k, l, f).1, id);
    }
  }

  /** The name and address an order finds are those the committed commands leave, although a number
      edit or a registration may be half done. */
  lemma ContactCommitted(start: Db, d: System, i: nat)
    requires SysInv(start, d) && i < |d.sync.threads| && Looking(d.sync.threads[i])
    requires FoundContact(d.files.buyers, Job(d, i).buyerId).Some?
    ensures FoundContact(d.files.buyers, Job(d, i).buyerId) == FoundContact(Committed(start, d).buyers, Job(d, i).buyerId)
  {
    if HasEffective(d.sync, CustomerInfo) {
      var j :| 0 <= j < |d.sync.threads| && Effective(d.sync.threads[j]) && CustomerInfo in LocksOf(Job(d, j));
      assert Current(d, j) && WillBe(start, d, j) && d.sync.threads[j].todo[0] == SectionOf(Job(d, j));
      assert SameTable(CustomerInfo, Outcome(d, j), Committed(start, d));
      assert LocksOf(Job(d, i))[2] == CustomerOrder;
      PendingDisjoint(d, i, j, CustomerOrder);
      FinishKeepsContact(Job(d, j), Done(d, j), d.locals[j], d.files, Job(d, i).buyerId);
    }
  }

  // ---------------------------------------------------------------------------------------
  // Steps keep the invariant.

  /** What another thread's access writes is nothing that a pending command may depend on. */
  lemma AccessInvisible(start: Db, d: System, i: nat, j: nat)
    requires SysInv(start, d) && CanStep(d.sync, i) && Pending(d.sync.threads[i])
    requires j < |d.sync.threads| && j != i && Pending(d.sync.threads[j])
    ensures SameLocked(Job(d, j), d.files, NextAccess(d, i).1)
    ensures CopiesCurrent(Job(d, j), Done(d, j), d.locals[j], NextAccess(d, i).1)
  {
    var c, a := Job(d, j), Job(d, i);
    assert d.sync.threads[i].todo[0] == SectionOf(a) && d.sync.threads[j].todo[0] == SectionOf(c);
    assert Current(d, i) && Current(d, j);
    var f := NextAccess(d, i).1;
    forall t | t in LocksOf(c) ensures SameTable(t, d.files, f) {
      PendingDisjoint(d, i, j, t);
      AccessFrame(a, Done(d, i), d.locals[i], d.files, t);
    }
    SameLockedTables(c, d.files, f);
    if c.CompleteOrder? && Done(d, j) >= 2 && d.locals[j].contact.Some? {
      PendingDisjoint(d, i, j, CustomerOrder);
      AccessKeepsContact(a, Done(d, i), d.locals[i], d.files, c.buyerId);
    }
  }

  lemma SameLockedTables(c: Cmd, a: Db, b: Db)
    requires SameLocked(c, a, b)
    ensures c.EditNumber? || c.RegisterBuyer? || c.EditContact? ==> a.buyers == b.buyers
    ensures c.AddProduct? || c.ModifyQuantity? || c.ModifyPrice? || c.CompleteOrder? ==> a.products == b.products
    ensures c.CompleteOrder? ==> CustomerOrder in LocksOf(c) && a.bills == b.bills && a.lines == b.lines
  {
    assert LocksOf(c)[0] in LocksOf(c);
    assert SameTable(LocksOf(c)[0], a, b);
    if c.CompleteOrder? {
      assert LocksOf(c)[1] == BillingInfo && LocksOf(c)[2] == CustomerOrder;
      assert SameTable(BillingInfo, a, b) && SameTable(CustomerOrder, a, b);
    }
  }

  /** So it leaves that command's copies and outcome as they were. */
  lemma CopiesSpared(start: Db, d: System, i: nat, j: nat)
    requires SysInv(start, d) && CanStep(d.sync, i) && Pending(d.sync.threads[i]) && Shape(DoStep(d, i))
    requires j < |d.sync.threads| && j != i && Pending(d.sync.threads[j])
    ensures Current(DoStep(d, i), j)
  {
    AccessInvisible(start, d, i, j);
  }

  /** Another thread's step leaves a pending command its place and its copies. */
  lemma OutcomeAfter(d: System, i: nat, j: nat)
    requires Shape(d) && CanStep(d.sync, i) && Shape(DoStep(d, i))
    requires j < |d.sync.threads| && j != i && Pending(d.sync.threads[j])
    ensures Outcome(DoStep(d, i), j) == Finish(Job(d, j), Done(d, j), d.locals[j], NextAccess(d, i).1)
  {
  }

  lemma OutcomeSpared(start: Db, d: System, i: nat, j: nat)
    requires SysInv(start, d) && CanStep(d.sync, i) && Pending(d.sync.threads[i]) && Shape(DoStep(d, i))
    requires j < |d.sync.threads| && j != i && Effective(d.sync.threads[j])
    ensures SameLocked(Job(d, j), Outcome(DoStep(d, i), j), Outcome(d, j))
  {
    AccessInvisible(start, d, i, j);
    OutcomeAfter(d, i, j);
    var c, k, l, f, g := Job(d, j), Done(d, j), d.locals[j], d.files, NextAccess(d, i).1;
    LookedEnough(d, j);
    FinishAgrees(c, k, l, g, f);
  }

  lemma LookedEnough(d: System, j: nat)
    requires Shape(d) && j < |d.sync.threads| && Effective(d.sync.threads[j])
    ensures Done(d, j) <= Accesses(Job(d, j)) && (Job(d, j).CompleteOrder? ==> Done(d, j) >= 2)
  {
    assert d.sync.threads[j].todo[0] == SectionOf(Job(d, j));
  }

  /** Every step: the copies stay current. */
  lemma StepStaysCurrent(start: Db, d: System, i: nat, j: nat)
    requires SysInv(start, d) && CanStep(d.sync, i) && Shape(DoStep(d, i))
    requires j < |d.sync.threads| && Pending(DoStep(d, i).sync.threads[j])
    ensures Current(DoStep(d, i), j)
  {
    ShapeKept(d, i);
    if j != i {
      assert Current(d, j);
      if Pending(d.sync.threads[i]) { CopiesSpared(start, d, i, j); }
    } else if Pending(d.sync.threads[i]) {
      assert Current(d, i) && d.sync.threads[i].todo[0] == SectionOf(Job(d, i));
      AccessStaysCurrent(Job(d, i), Done(d, i), d.locals[i], d.files);
    }
  }

  /** A command that commits changes nothing that the other pending commands have locked. */
  lemma CommitSparesOthers(start: Db, d: System, i: nat, c: Cmd, j: nat)
    requires SysInv(start, d) && i < |d.sync.threads| && j < |d.sync.threads| && j != i && Effective(d.sync.threads[j])
    requires forall t :: !(t in LocksOf(c) && t in LocksOf(Job(d, j)))
    ensures SameLocked(Job(d, j), Outcome(d, j), Apply(Committed(start, d), c))
  {
    assert WillBe(start, d, j);
    forall t | t in LocksOf(Job(d, j)) ensures SameTable(t, Outcome(d, j), Apply(Committed(start, d), c)) {
      ApplyFrame(c, Committed(start, d), t);
    }
  }

  /** A pending command past its commit point makes an access. */
  lemma AccessKeepsInv(start: Db, d: System, i: nat)
    requires SysInv(start, d) && CanStep(d.sync, i) && Effective(d.sync.threads[i])
    ensures SysInv(start, DoStep(d, i))
  {
    var n := DoStep(d, i);
    var c := Job(d, i);
    ShapeKept(d, i);
    assert WillBe(start, d, i) && d.sync.threads[i].todo[0] == SectionOf(c);
    forall j | 0 <= j < |n.sync.threads| && Pending(n.sync.threads[j]) ensures Current(n, j) { StepStaysCurrent(start, d, i, j); }
    forall j | 0 <= j < |n.sync.threads| && Effective(n.sync.threads[j]) ensures WillBe(start, n, j) {
      if j != i {
        assert WillBe(start, d, j);
        OutcomeSpared(start, d, i, j);
      }
    }
    forall t | !HasEffective(n.sync, t) ensures SameTable(t, n.files, Committed(start, n)) { AccessTable(start, d, i, t); }
  }

  /** After its last access the command's tables are in the files. */
  lemma AccessTable(start: Db, d: System, i: nat, t: Table)
    requires SysInv(start, d) && CanStep(d.sync, i) && Effective(d.sync.threads[i]) && !HasEffective(DoStep(d, i).sync, t)
    ensures SameTable(t, DoStep(d, i).files, Committed(start, d))
  {
    var n, c := DoStep(d, i), Job(d, i);
    ShapeKept(d, i);
    assert WillBe(start, d, i) && d.sync.threads[i].todo[0] == SectionOf(c);
    if t in LocksOf(c) {
      assert !Pending(n.sync.threads[i]);
      assert Finish(c, Accesses(c), n.locals[i], n.files) == n.files;
    } else {
      AccessFrame(c, Done(d, i), d.locals[i], d.files, t);
      if HasEffective(d.sync, t) { EffectiveStays(d.sync, i, t); }
    }
  }

  /** An order loads the buyers, and counts from here. */
  lemma OrderCommits(start: Db, d: System, i: nat)
    requires SysInv(start, d) && CanStep(d.sync, i) && Looking(d.sync.threads[i]) && AtPoint(d.sync.threads[i], Commit)
    requires SearchSucceeds(d, i) && Shape(DoStep(d, i)) && Pending(DoStep(d, i).sync.threads[i])
    ensures SameLocked(Job(d, i), Outcome(DoStep(d, i), i), Apply(Committed(start, d), Job(d, i)))
  {
    var c, n, spec := Job(d, i), DoStep(d, i), Committed(start, d);
    assert Current(d, i) && d.sync.threads[i].todo[0] == SectionOf(c);
    forall t | t in LocksOf(c) { LookingSeesCommitted(start, d, i, t); }
    SameLockedTables(c, d.files, spec);
    OrderFinish(c, n.locals[i], n.files);
    if Accepts(c.items, spec.products) { ContactCommitted(start, d, i); }
    assert forall t :: t in LocksOf(c) ==> t == ProductInfo || t == BillingInfo || t == CustomerOrder;
  }

  /** A command that is not an order gets its last lock, and counts from here. */
  lemma OtherCommits(start: Db, d: System, i: nat)
    requires SysInv(start, d) && CanStep(d.sync, i) && AtPoint(d.sync.threads[i], LockPoint) && !Job(d, i).CompleteOrder?
    requires Shape(DoStep(d, i)) && Pending(DoStep(d, i).sync.threads[i])
    ensures SameLocked(Job(d, i), Outcome(DoStep(d, i), i), Apply(Committed(start, d), Job(d, i)))
  {
    var c, spec := Job(d, i), Committed(start, d);
    assert d.sync.threads[i].todo[0] == SectionOf(c);
    forall t | t in LocksOf(c) ensures SameTable(t, d.files, spec) {
      if HasEffective(d.sync, t) {
        var j :| 0 <= j < |d.sync.threads| && Effective(d.sync.threads[j]) && t in LocksOf(Job(d, j));
        LockPointExcludes(d, i, j, t);
      }
    }
    FinishAgrees(c, 0, NO_LOCALS, d.files, spec);
    AloneIsApply(c, spec);
  }

  /** A commit leaves the files alone, makes its thread effective and shares no lock with those that are. */
  lemma Committing(start: Db, d: System, i: nat)
    requires SysInv(start, d) && CanStep(d.sync, i) && AtPoint(d.sync.threads[i], Commit)
    ensures var n := DoStep(d, i);
      && Shape(n) && Inv(n.sync) && n.files == d.files
      && Effective(n.sync.threads[i]) && Job(n, i) == Job(d, i)
      && Committed(start, n) == Apply(Committed(start, d), Job(d, i))
    ensures forall j, t ::
      0 <= j < |d.sync.threads| && j != i && Effective(d.sync.threads[j]) ==> !(t in LocksOf(Job(d, i)) && t in LocksOf(Job(d, j)))
  {
    var th := d.sync.threads[i];
    ShapeKept(d, i);
    assert th.todo[0] == SectionOf(Job(d, i));
    OneMoreCommand(d.log, i, Job(d, i), start);
    forall j, t | 0 <= j < |d.sync.threads| && j != i && Effective(d.sync.threads[j])
      ensures !(t in LocksOf(Job(d, i)) && t in LocksOf(Job(d, j)))
    {
      if Looking(th) { PendingDisjoint(d, i, j, t); } else { LockPointExcludes(d, i, j, t); }
    }
  }

  lemma CommitWillBe(start: Db, d: System, i: nat, j: nat)
    requires SysInv(start, d) && CanStep(d.sync, i) && AtPoint(d.sync.threads[i], Commit) && SearchSucceeds(d, i)
    requires Shape(DoStep(d, i)) && j < |d.sync.threads| && Effective(DoStep(d, i).sync.threads[j])
    ensures WillBe(start, DoStep(d, i), j)
  {
    Committing(start, d, i);
    if j != i {
      CommitSparesOthers(start, d, i, Job(d, i), j);
      assert Outcome(DoStep(d, i), j) == Outcome(d, j);
    } else if Looking(d.sync.threads[i]) {
      OrderCommits(start, d, i);
    } else {
      assert d.sync.threads[i].todo[0] == SectionOf(Job(d, i));
      OtherCommits(start, d, i);
    }
  }

  lemma CommitTable(start: Db, d: System, i: nat, t: Table)
    requires SysInv(start, d) && CanStep(d.sync, i) && AtPoint(d.sync.threads[i], Commit)
    requires !HasEffective(DoStep(d, i).sync, t)
    ensures SameTable(t, DoStep(d, i).files, Committed(start, DoStep(d, i)))
  {
    Committing(start, d, i);
    assert t !in LocksOf(Job(d, i));
    ApplyFrame(Job(d, i), Committed(start, d), t);
    if HasEffective(d.sync, t) {
      assert d.sync.threads[i].todo[0] == SectionOf(Job(d, i));
      EffectiveStays(d.sync, i, t);
    }
  }

  lemma CommitKeepsInv(start: Db, d: System, i: nat)
    requires SysInv(start, d) && CanStep(d.sync, i) && AtPoint(d.sync.threads[i], Commit) && SearchSucceeds(d, i)
    ensures SysInv(start, DoStep(d, i))
  {
    var n := DoStep(d, i);
    Committing(start, d, i);
    forall j | 0 <= j < |n.sync.threads| && Pending(n.sync.threads[j]) ensures Current(n, j) { StepStaysCurrent(start, d, i, j); }
    forall j | 0 <= j < |n.sync.threads| && Effective(n.sync.threads[j]) ensures WillBe(start, n, j) { CommitWillBe(start, d, i, j); }
    forall t | !HasEffective(n.sync, t) ensures SameTable(t, n.files, Committed(start, n)) { CommitTable(start, d, i, t); }
  }

  /** Every other step leaves the files and the log alone, and nobody becomes effective. */
  lemma OtherStep(d: System, i: nat)
    requires Shape(d) && Inv(d.sync) && CanStep(d.sync, i) && !AtPoint(d.sync.threads[i], Commit) && !Effective(d.sync.threads[i])
    ensures DoStep(d, i).files == d.files && DoStep(d, i).log == d.log
    ensures !Effective(DoStep(d, i).sync.threads[i])
  {
    ShapeKept(d, i);
    assert d.sync.threads[i].todo[0].Write? ==> d.sync.threads[i].todo[0] == SectionOf(Job(d, i));
  }

  lemma OtherStepKeepsInv(start: Db, d: System, i: nat)
    requires SysInv(start, d) && CanStep(d.sync, i) && !AtPoint(d.sync.threads[i], Commit) && !Effective(d.sync.threads[i])
    ensures SysInv(start, DoStep(d, i))
  {
    var n := DoStep(d, i);
    ShapeKept(d, i);
    OtherStep(d, i);
    forall j | 0 <= j < |n.sync.threads| && Pending(n.sync.threads[j]) ensures Current(n, j) { StepStaysCurrent(start, d, i, j); }
    forall j | 0 <= j < |n.sync.threads| && Effective(n.sync.threads[j]) ensures WillBe(start, n, j) { StillWillBe(start, d, i, j); }
    forall t | !HasEffective(n.sync, t) ensures SameTable(t, n.files, Committed(start, n)) {
      if HasEffective(d.sync, t) { EffectiveStays(d.sync, i, t); }
    }
  }

  lemma StillWillBe(start: Db, d: System, i: nat, j: nat)
    requires SysInv(start, d) && CanStep(d.sync, i) && Shape(DoStep(d, i)) && i != j
    requires DoStep(d, i).files == d.files && DoStep(d, i).log == d.log
    requires j < |d.sync.threads| && Effective(d.sync.threads[j])
    ensures WillBe(start, DoStep(d, i), j)
  {
    assert WillBe(start, d, j);
    OutcomeAfter(d, i, j);
  }

  lemma StepKeepsSysInv(start: Db, d: System, i: nat)
    requires SysInv(start, d) && CanStep(d.sync, i) && SearchSucceeds(d, i)
    ensures SysInv(start, DoStep(d, i))
  {
    var th := d.sync.threads[i];
    assert th.todo[0].Write? ==> th.todo[0] == SectionOf(Job(d, i));
    if Effective(th) { AccessKeepsInv(start, d, i); }
    else if AtPoint(th, Commit) { CommitKeepsInv(start, d, i); }
    else { OtherStepKeepsInv(start, d, i); }
  }

  lemma {:induction false} RunKeepsSysInv(start: Db, d: System, sched: seq<nat>)
    requires SysInv(start, d) && Runs(d, sched)
    ensures SysInv(start, Reach(d, sched))
    decreases |sched|
  {
    if sched != [] {
      StepKeepsSysInv(start, d, sched[0]);
      RunKeepsSysInv(start, DoStep(d, sched[0]), sched[1..]);
    }
  }
}
