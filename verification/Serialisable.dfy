/** What the refinement gives: for any number of threads and any interleaving. */
module Serialisable {
  import opened Locks
  import opened Shop
  import opened Serial
  import opened Interleave
  import Progress
  import DsModel

  ghost predicate Conforming(progs: seq<seq<Section<Cmd>>>) {
    forall i :: 0 <= i < |progs| ==> Conforms(Thread(progs[i], 0))
  }

  function SystemStart(start: Db, progs: seq<seq<Section<Cmd>>>): System {
    System(Start(progs), start, seq(|progs|, _ => NO_LOCALS), [], [])
  }

  /** The demonstration server's command for a shop command, once it is known to be valid. */
  function CommandOf(c: Cmd): DsModel.Command {
    match c
    case CompleteOrder(_, _, _) => DsModel.CompleteOrder(true)
    case EditContact(_, e) => DsModel.EditInfo(true, if e.Name? then DsModel.Info.Name else DsModel.Info.Address)
    case EditNumber(_, _) => DsModel.EditInfo(true, DsModel.Info.Number)
    case RegisterBuyer(_, _) => DsModel.NewClient(true)
    case AddProduct(_) => DsModel.NewProduct
    case ModifyQuantity(_, _, _) => DsModel.ModQuant(true, true)
    case ModifyPrice(_, _, _) => DsModel.ModPrice(true, true)
    case ReturnProduct(_, _) => DsModel.ModOrder
  }

  /** The data server takes the locks of the demonstration server, in the same order. */
  lemma SameLocksAsTheModel(c: Cmd)
    ensures |DsModel.Sections(CommandOf(c))| == 1
    ensures var m := DsModel.Sections(CommandOf(c))[0]; m.Write? && m.waits == SectionOf(c).waits && m.posts == SectionOf(c).posts
  {
  }

  lemma ConformingPrograms(progs: seq<seq<Section<Cmd>>>)
    requires Conforming(progs)
    ensures WellFormedPrograms(progs) && Progress.RankedPrograms(progs, DsModel.ResourceOrder)
  {
    forall i, k | 0 <= i < |progs| && 0 <= k < |progs[i]|
      ensures progs[i][k].WellFormed() && progs[i][k].Ranked(DsModel.ResourceOrder)
    {
      assert Conforms(Thread(progs[i], 0));
    }
  }

  lemma StartSysInv(start: Db, progs: seq<seq<Section<Cmd>>>)
    requires Conforming(progs)
    ensures SysInv(start, SystemStart(start, progs))
  {
    ConformingPrograms(progs);
    StartInv(progs);
    var d := SystemStart(start, progs);
    forall i | 0 <= i < |progs| ensures Conforms(d.sync.threads[i]) && !Pending(d.sync.threads[i]) {
      assert Conforms(Thread(progs[i], 0));
      assert d.sync.threads[i].Valid();
    }
    assert Commands(d.log) == [];
  }

  /** The file steps are the lock machine's steps. */
  lemma {:induction false} RunsOnLocks(d: System, sched: seq<nat>)
    requires Runs(d, sched)
    ensures Schedulable(d.sync, sched) && After(d.sync, sched) == Reach(d, sched).sync
    decreases |sched|
  {
    if sched != [] { RunsOnLocks(DoStep(d, sched[0]), sched[1..]); }
  }

  lemma StepFirst(d: System, sched: seq<nat>)
    requires sched != [] && Shape(d) && CanStep(d.sync, sched[0]) && SearchSucceeds(d, sched[0])
    requires Runs(DoStep(d, sched[0]), sched[1..])
    ensures Runs(d, sched) && Reach(d, sched) == Reach(DoStep(d, sched[0]), sched[1..])
  {
  }

  // ---------------------------------------------------------------------------------------
  // Each log is an interleaving of the threads' command lists.

  function JobsOf(prog: seq<Section<Cmd>>): seq<Cmd> {
    if prog == [] then [] else (if prog[0].Write? then [prog[0].job] else []) + JobsOf(prog[1..])
  }

  predicate Past(th: Thread<Cmd>, p: Point) {
    && th.todo != [] && th.todo[0].Write?
    && |th.todo[0].waits| + (if p == Commit && th.todo[0].job.CompleteOrder? then 2 else 0) <= th.pos
  }

  /** Commands whose point is still ahead. */
  function JobsAhead(th: Thread<Cmd>, p: Point): seq<Cmd> {
    if Past(th, p) then JobsOf(th.todo[1..]) else JobsOf(th.todo)
  }

  function LogOf(log: seq<(nat, Cmd)>, i: nat): seq<Cmd> {
    if log == [] then []
    else LogOf(log[..|log| - 1], i) + if log[|log| - 1].0 == i then [log[|log| - 1].1] else []
  }

  /** Every entry is some thread's, and each thread's entries are its commands in its own order. */
  ghost predicate Interleaves(log: seq<(nat, Cmd)>, progs: seq<seq<Section<Cmd>>>) {
    && (forall k :: 0 <= k < |log| ==> log[k].0 < |progs|)
    && (forall i :: 0 <= i < |progs| ==> LogOf(log, i) == JobsOf(progs[i]))
  }

  lemma NextJobs(th: Thread<Cmd>, p: Point)
    requires th.Valid() && th.todo != [] && Conforms(th) && th.Next().Valid()
    ensures JobsAhead(th, p) == (if AtPoint(th, p) then [th.todo[0].job] else []) + JobsAhead(th.Next(), p)
  {
    assert th.todo[0].Write? ==> th.todo[0] == SectionOf(th.todo[0].job);
    assert [] + JobsAhead(th.Next(), p) == JobsAhead(th.Next(), p);
  }

  lemma LogOfMore(log: seq<(nat, Cmd)>, e: (nat, Cmd), j: nat)
    ensures LogOf(log + [e], j) == LogOf(log, j) + if e.0 == j then [e.1] else []
  {
    assert (log + [e])[..|log|] == log;
  }

  lemma StepLog(d: System, p: Point, i: nat)
    requires Shape(d) && CanStep(d.sync, i)
    ensures Log(DoStep(d, i), p) == Logged(Log(d, p), d, i, p) && DoStep(d, i).sync == Step(d.sync, i)
  {
  }

  lemma LoggedOf(log: seq<(nat, Cmd)>, d: System, p: Point, i: nat, j: nat)
    requires i < |d.sync.threads|
    ensures LogOf(Logged(log, d, i, p), j) == LogOf(log, j) + if i == j && AtPoint(d.sync.threads[i], p) then [Job(d, i)] else []
  {
    if AtPoint(d.sync.threads[i], p) { LogOfMore(log, (i, Job(d, i)), j); }
  }

  lemma Regroup(a: seq<Cmd>, b: seq<Cmd>, c: seq<Cmd>)
    ensures a + (b + c) == (a + b) + c && (b == [] ==> a + b == a)
  {
  }

  lemma StepLogs(d: System, p: Point, i: nat, j: nat)
    requires Shape(d) && Inv(d.sync) && CanStep(d.sync, i) && j < |d.sync.threads|
    ensures LogOf(Logged(Log(d, p), d, i, p), j) + JobsAhead(Step(d.sync, i).threads[j], p)
         == LogOf(Log(d, p), j) + JobsAhead(d.sync.threads[j], p)
  {
    var th := d.sync.threads[i];
    LoggedOf(Log(d, p), d, p, i, j);
    if i == j {
      StepKeepsInv(d.sync, i);
      NextJobs(th, p);
      Regroup(LogOf(Log(d, p), j), if AtPoint(th, p) then [Job(d, i)] else [], JobsAhead(th.Next(), p));
    }
  }

  lemma {:induction false} RunLogs(start: Db, d: System, p: Point, sched: seq<nat>, j: nat)
    requires SysInv(start, d) && Runs(d, sched) && j < |d.sync.threads|
    ensures var e := Reach(d, sched);
      && |e.sync.threads| == |d.sync.threads|
      && LogOf(Log(e, p), j) + JobsAhead(e.sync.threads[j], p) == LogOf(Log(d, p), j) + JobsAhead(d.sync.threads[j], p)
    decreases |sched|
  {
    if sched != [] {
      StepLog(d, p, sched[0]);
      StepLogs(d, p, sched[0], j);
      StepKeepsSysInv(start, d, sched[0]);
      RunLogs(start, DoStep(d, sched[0]), p, sched[1..], j);
    }
  }

  ghost predicate LoggedByThreads(d: System, p: Point) {
    forall k :: 0 <= k < |Log(d, p)| ==> Log(d, p)[k].0 < |d.sync.threads|
  }

  lemma {:induction false} RunLogsThreads(d: System, p: Point, sched: seq<nat>)
    requires Runs(d, sched) && LoggedByThreads(d, p)
    ensures LoggedByThreads(Reach(d, sched), p) && |Reach(d, sched).sync.threads| == |d.sync.threads|
    decreases |sched|
  {
    if sched != [] {
      var n := DoStep(d, sched[0]);
      forall k | 0 <= k < |Log(n, p)| ensures Log(n, p)[k].0 < |n.sync.threads| {
        if k < |Log(d, p)| { assert Log(n, p)[k] == Log(d, p)[k]; }
      }
      RunLogsThreads(n, p, sched[1..]);
    }
  }

  // ---------------------------------------------------------------------------------------
  // Sums over commands: what is logged and what is ahead add up to what the programs hold.

  function Sum(cs: seq<Cmd>, w: Cmd -> int): int {
    if cs == [] then 0 else Sum(cs[..|cs| - 1], w) + w(cs[|cs| - 1])
  }

  function ProgramSum(prog: seq<Section<Cmd>>, w: Cmd -> int): int {
    if prog == [] then 0 else (if prog[0].Write? then w(prog[0].job) else 0) + ProgramSum(prog[1..], w)
  }

  function ProgramsSum(progs: seq<seq<Section<Cmd>>>, w: Cmd -> int): int {
    if progs == [] then 0 else ProgramSum(progs[0], w) + ProgramsSum(progs[1..], w)
  }

  function ThreadSum(th: Thread<Cmd>, p: Point, w: Cmd -> int): int {
    if Past(th, p) then ProgramSum(th.todo[1..], w) else ProgramSum(th.todo, w)
  }

  function AheadSum(ths: seq<Thread<Cmd>>, p: Point, w: Cmd -> int): int {
    if ths == [] then 0 else ThreadSum(ths[0], p, w) + AheadSum(ths[1..], p, w)
  }

  lemma {:induction false} AheadUpdate(ths: seq<Thread<Cmd>>, i: nat, x: Thread<Cmd>, p: Point, w: Cmd -> int)
    requires i < |ths|
    ensures AheadSum(ths[i := x], p, w) == AheadSum(ths, p, w) - ThreadSum(ths[i], p, w) + ThreadSum(x, p, w)
  {
    if i > 0 {
      AheadUpdate(ths[1..], i - 1, x, p, w);
      assert ths[i := x][1..] == ths[1..][i - 1 := x];
    } else {
      assert ths[i := x][1..] == ths[1..];
    }
  }

  lemma SumMore(cs: seq<Cmd>, c: Cmd, w: Cmd -> int)
    ensures Sum(cs + [c], w) == Sum(cs, w) + w(c)
  {
    assert (cs + [c])[..|cs|] == cs;
  }

  lemma NextSum(th: Thread<Cmd>, p: Point, w: Cmd -> int)
    requires th.Valid() && th.todo != [] && Conforms(th) && th.Next().Valid()
    ensures ThreadSum(th, p, w) == (if AtPoint(th, p) then w(th.todo[0].job) else 0) + ThreadSum(th.Next(), p, w)
  {
    assert th.todo[0].Write? ==> th.todo[0] == SectionOf(th.todo[0].job);
  }

  lemma {:induction false} StepSum(d: System, p: Point, i: nat, w: Cmd -> int)
    requires Shape(d) && Inv(d.sync) && CanStep(d.sync, i)
    ensures Sum(Commands(Logged(Log(d, p), d, i, p)), w) + AheadSum(Step(d.sync, i).threads, p, w)
         == Sum(Commands(Log(d, p)), w) + AheadSum(d.sync.threads, p, w)
  {
    var th := d.sync.threads[i];
    StepKeepsInv(d.sync, i);
    NextSum(th, p, w);
    AheadUpdate(d.sync.threads, i, th.Next(), p, w);
    if AtPoint(th, p) {
      SumMore(Commands(Log(d, p)), Job(d, i), w);
      assert Commands(Log(d, p) + [(i, Job(d, i))]) == Commands(Log(d, p)) + [Job(d, i)];
    }
  }

  lemma {:induction false} RunSum(start: Db, d: System, p: Point, sched: seq<nat>, w: Cmd -> int)
    requires SysInv(start, d) && Runs(d, sched)
    ensures var e := Reach(d, sched);
      Sum(Commands(Log(e, p)), w) + AheadSum(e.sync.threads, p, w) == Sum(Commands(Log(d, p)), w) + AheadSum(d.sync.threads, p, w)
    decreases |sched|
  {
    if sched != [] {
      StepLog(d, p, sched[0]);
      StepSum(d, p, sched[0], w);
      StepKeepsSysInv(start, d, sched[0]);
      RunSum(start, DoStep(d, sched[0]), p, sched[1..], w);
    }
  }

  lemma {:induction false} StartSum(progs: seq<seq<Section<Cmd>>>, p: Point, w: Cmd -> int)
    requires Conforming(progs)
    ensures AheadSum(Start(progs).threads, p, w) == ProgramsSum(progs, w)
  {
    if progs != [] {
      assert forall i :: 0 <= i < |progs[1..]| ==> progs[1..][i] == progs[i + 1];
      assert Conforms(Thread(progs[0], 0));
      StartSum(progs[1..], p, w);
      assert Start(progs).threads[1..] == Start(progs[1..]).threads;
      assert !Past(Thread(progs[0], 0), p);
    }
  }

  lemma {:induction false} ProgramSumAtLeast(prog: seq<Section<Cmd>>, w: Cmd -> int)
    requires forall c :: w(c) >= 0
    ensures ProgramSum(prog, w) >= 0
  {
    if prog != [] { ProgramSumAtLeast(prog[1..], w); }
  }

  lemma {:induction false} AheadAtLeast(ths: seq<Thread<Cmd>>, p: Point, w: Cmd -> int)
    requires forall c :: w(c) >= 0
    ensures AheadSum(ths, p, w) >= 0
  {
    if ths != [] {
      ProgramSumAtLeast(ths[0].todo, w);
      if ths[0].todo != [] { ProgramSumAtLeast(ths[0].todo[1..], w); }
      AheadAtLeast(ths[1..], p, w);
    }
  }

  /** Along every run, a log holds no more of anything than the programs do. */
  lemma {:induction false} LoggedSum(start: Db, progs: seq<seq<Section<Cmd>>>, p: Point, sched: seq<nat>, w: Cmd -> int)
    requires Conforming(progs) && Runs(SystemStart(start, progs), sched) && forall c :: w(c) >= 0
    ensures Sum(Commands(Log(Reach(SystemStart(start, progs), sched), p)), w) <= ProgramsSum(progs, w)
  {
    var d := SystemStart(start, progs);
    StartSysInv(start, progs);
    RunSum(start, d, p, sched, w);
    StartSum(progs, p, w);
    AheadAtLeast(Reach(d, sched).sync.threads, p, w);
    assert Commands(Log(d, p)) == [];
  }

  /** Every logged command has what every command of the programs has. */
  lemma {:induction false} LoggedAll(start: Db, progs: seq<seq<Section<Cmd>>>, p: Point, sched: seq<nat>, ok: Cmd -> bool)
    requires Conforming(progs) && Runs(SystemStart(start, progs), sched) && AllJobs(progs, ok)
    ensures AllOf(Commands(Log(Reach(SystemStart(start, progs), sched), p)), ok)
  {
    var bad := c => if ok(c) then 0 else 1;
    LoggedSum(start, progs, p, sched, bad);
    NoBadJobs(progs, ok, bad);
    NoneBad(Commands(Log(Reach(SystemStart(start, progs), sched), p)), ok, bad);
  }

  ghost predicate AllOf(cs: seq<Cmd>, ok: Cmd -> bool) {
    forall n :: 0 <= n < |cs| ==> ok(cs[n])
  }

  ghost predicate AllJobs(progs: seq<seq<Section<Cmd>>>, ok: Cmd -> bool) {
    forall i, k :: 0 <= i < |progs| && 0 <= k < |progs[i]| && progs[i][k].Write? ==> ok(progs[i][k].job)
  }

  lemma {:induction false} NoBadJob(prog: seq<Section<Cmd>>, ok: Cmd -> bool, bad: Cmd -> int)
    requires forall k :: 0 <= k < |prog| && prog[k].Write? ==> ok(prog[k].job)
    requires forall c :: bad(c) == if ok(c) then 0 else 1
    ensures ProgramSum(prog, bad) == 0
  {
    if prog != [] { NoBadJob(prog[1..], ok, bad); }
  }

  lemma {:induction false} NoBadJobs(progs: seq<seq<Section<Cmd>>>, ok: Cmd -> bool, bad: Cmd -> int)
    requires AllJobs(progs, ok) && forall c :: bad(c) == if ok(c) then 0 else 1
    ensures ProgramsSum(progs, bad) == 0
  {
    if progs != [] {
      NoBadJob(progs[0], ok, bad);
      assert forall i :: 0 <= i < |progs[1..]| ==> progs[1..][i] == progs[i + 1];
      NoBadJobs(progs[1..], ok, bad);
    }
  }

  lemma {:induction false} NoneBad(cs: seq<Cmd>, ok: Cmd -> bool, bad: Cmd -> int)
    requires (forall c :: bad(c) == if ok(c) then 0 else 1) && Sum(cs, bad) <= 0
    ensures Sum(cs, bad) == 0 && forall n :: 0 <= n < |cs| ==> ok(cs[n])
  {
    if cs != [] {
      SumAtLeast(cs[..|cs| - 1], bad);
      NoneBad(cs[..|cs| - 1], ok, bad);
    }
  }

  lemma {:induction false} SumAtLeast(cs: seq<Cmd>, w: Cmd -> int)
    requires forall c :: w(c) >= 0
    ensures Sum(cs, w) >= 0
  {
    if cs != [] { SumAtLeast(cs[..|cs| - 1], w); }
  }

  // ---------------------------------------------------------------------------------------
  // The theorems.

  /** No thread can make another step. */
  ghost predicate AtEnd(d: System) {
    forall i: nat :: !CanStep(d.sync, i)
  }

  lemma {:induction false} EndIsFinished(start: Db, progs: seq<seq<Section<Cmd>>>, sched: seq<nat>)
    requires Conforming(progs) && Runs(SystemStart(start, progs), sched) && AtEnd(Reach(SystemStart(start, progs), sched))
    ensures var e := Reach(SystemStart(start, progs), sched); Finished(e.sync) && Progress.FreeAgain(progs, e.sync)
  {
    ConformingPrograms(progs);
    RunsOnLocks(SystemStart(start, progs), sched);
    Progress.Completion(progs, DsModel.ResourceOrder, sched);
  }

  lemma NothingPendingIsCommitted(start: Db, e: System)
    requires SysInv(start, e) && Finished(e.sync)
    ensures e.files == Committed(start, e)
  {
    assert SameTable(CustomerInfo, e.files, Committed(start, e)) && SameTable(ProductInfo, e.files, Committed(start, e));
    assert SameTable(BillingInfo, e.files, Committed(start, e)) && SameTable(CustomerOrder, e.files, Committed(start, e));
  }

  lemma {:induction false} EndLog(start: Db, d: System, p: Point, sched: seq<nat>, i: nat)
    requires SysInv(start, d) && Runs(d, sched) && i < |d.sync.threads| && Log(d, p) == [] && Finished(Reach(d, sched).sync)
    ensures LogOf(Log(Reach(d, sched), p), i) == JobsAhead(d.sync.threads[i], p)
  {
    RunLogs(start, d, p, sched, i);
    var mine, jobs := LogOf(Log(Reach(d, sched), p), i), JobsAhead(d.sync.threads[i], p);
    assert mine + [] == mine && [] + jobs == jobs;
  }

  lemma {:induction false} EndLogs(start: Db, progs: seq<seq<Section<Cmd>>>, p: Point, sched: seq<nat>)
    requires Conforming(progs) && Runs(SystemStart(start, progs), sched) && Finished(Reach(SystemStart(start, progs), sched).sync)
    ensures Interleaves(Log(Reach(SystemStart(start, progs), sched), p), progs)
  {
    var d := SystemStart(start, progs);
    StartSysInv(start, progs);
    RunLogsThreads(d, p, sched);
    forall i | 0 <= i < |progs| ensures LogOf(Log(Reach(d, sched), p), i) == JobsOf(progs[i]) {
      EndLog(start, d, p, sched, i);
      assert Conforms(d.sync.threads[i]) && !Past(d.sync.threads[i], p);
    }
  }

  /** Serialisability. A run that cannot go on has finished every command with every semaphore free,
      and the files are what the commands leave when run one at a time in the order of their commit
      points, an order that keeps each thread's own. Missed lookups make no difference. */
  lemma {:induction false} EveryRunIsSerial(start: Db, progs: seq<seq<Section<Cmd>>>, sched: seq<nat>)
    requires Conforming(progs) && Runs(SystemStart(start, progs), sched) && AtEnd(Reach(SystemStart(start, progs), sched))
    ensures var e := Reach(SystemStart(start, progs), sched);
      && Finished(e.sync) && Progress.FreeAgain(progs, e.sync)
      && e.files == Replay(start, Commands(e.log))
      && Interleaves(e.log, progs) && Interleaves(e.locked, progs)
  {
    EndIsFinished(start, progs, sched);
    StartSysInv(start, progs);
    RunKeepsSysInv(start, SystemStart(start, progs), sched);
    NothingPendingIsCommitted(start, Reach(SystemStart(start, progs), sched));
    EndLogs(start, progs, Commit, sched);
    EndLogs(start, progs, LockPoint, sched);
  }

  ghost predicate Reachable(start: Db, progs: seq<seq<Section<Cmd>>>, d: System) {
    exists sched :: Runs(SystemStart(start, progs), sched) && Reach(SystemStart(start, progs), sched) == d
  }

  lemma ReachableInv(start: Db, progs: seq<seq<Section<Cmd>>>, d: System)
    requires Conforming(progs) && Reachable(start, progs, d)
    ensures SysInv(start, d)
  {
    var sched :| Runs(SystemStart(start, progs), sched) && Reach(SystemStart(start, progs), sched) == d;
    StartSysInv(start, progs);
    RunKeepsSysInv(start, SystemStart(start, progs), sched);
  }

  lemma ReachableExclusion(start: Db, progs: seq<seq<Section<Cmd>>>, d: System, t: Table)
    requires Conforming(progs) && Reachable(start, progs, d) && NoMiss(progs, t)
    ensures Exclusion(d.sync, t)
  {
    var sched :| Runs(SystemStart(start, progs), sched) && Reach(SystemStart(start, progs), sched) == d;
    RunsOnLocks(SystemStart(start, progs), sched);
    ConformingPrograms(progs);
    ReachedBy(progs, sched);
    ReaderWriterExclusion(progs, d.sync, t);
  }

  /** If no lookup of a table misses, a thread in its reader group sees exactly the committed
      commands' table. */
  lemma ReadersSeeCommitted(start: Db, progs: seq<seq<Section<Cmd>>>, d: System, i: nat, t: Table)
    requires Conforming(progs) && Reachable(start, progs, d) && NoMiss(progs, t)
    requires i < |d.sync.threads| && Plays(d.sync.threads[i], InGroup, t)
    ensures SameTable(t, d.files, Replay(start, Commands(d.log)))
  {
    ReachableInv(start, progs, d);
    ReachableExclusion(start, progs, d, t);
    if HasEffective(d.sync, t) {
      var j :| 0 <= j < |d.sync.threads| && Effective(d.sync.threads[j]) && t in LocksOf(Job(d, j));
      PendingHolds(d, j, t);
    }
  }

  /** An order that has all its write locks and has not released CustomerOrder, its last. */
  predicate HoldsOrders(th: Thread<Cmd>) {
    && th.todo != [] && th.todo[0].Write? && th.todo[0].job.CompleteOrder?
    && |th.todo[0].waits| <= th.pos && Plays(th, Writes, CustomerOrder)
  }

  /** The order has loaded the buyers. */
  predicate HasLooked(th: Thread<Cmd>) {
    HoldsOrders(th) && |th.todo[0].waits| + 2 <= th.pos
  }

  ghost predicate CopyKept(d: System, i: nat)
    requires Shape(d) && i < |d.sync.threads| && HasLooked(d.sync.threads[i])
  {
    d.locals[i].contact.Some? ==> d.locals[i].contact == FoundContact(d.files.buyers, Job(d, i).buyerId)
  }

  ghost predicate CopiesKept(d: System) {
    Shape(d) && forall i :: 0 <= i < |d.sync.threads| && HasLooked(d.sync.threads[i]) ==> CopyKept(d, i)
  }

  /** No step of another thread changes the name and address that an order looks for, found or copied. */
  lemma OthersKeepContact(start: Db, d: System, i: nat, j: nat)
    requires SysInv(start, d) && i < |d.sync.threads| && HoldsOrders(d.sync.threads[i])
    requires j != i && CanStep(d.sync, j) && FoundContact(d.files.buyers, Job(d, i).buyerId).Some?
    ensures FoundContact(NextAccess(d, j).1.buyers, Job(d, i).buyerId) == FoundContact(d.files.buyers, Job(d, i).buyerId)
  {
    if Pending(d.sync.threads[j]) {
      assert d.sync.threads[j].todo[0] == SectionOf(Job(d, j)) && Current(d, j);
      InvExcludesWriters(d.sync, CustomerOrder);
      if CustomerOrder in LocksOf(Job(d, j)) { PendingHolds(d, j, CustomerOrder); }
      AccessKeepsContact(Job(d, j), Done(d, j), d.locals[j], d.files, Job(d, i).buyerId);
    }
  }

  /** The order's own step: it copies what it finds, and leaves the buyers alone. */
  lemma OwnStepKeepsCopy(start: Db, d: System, i: nat)
    requires SysInv(start, d) && CopiesKept(d) && CanStep(d.sync, i) && Shape(DoStep(d, i))
    requires HasLooked(DoStep(d, i).sync.threads[i])
    ensures CopyKept(DoStep(d, i), i)
  {
    var th := d.sync.threads[i];
    ShapeKept(d, i);
    assert th.todo[0].Write? ==> th.todo[0] == SectionOf(th.todo[0].job);
    assert th.Next().todo == th.todo;
    WriterRoles(th, CustomerOrder);
    if Pending(th) {
      assert Current(d, i);
      if 2 <= Done(d, i) { PendingHolds(d, i, CustomerOrder); }
    }
    if HasLooked(th) { assert CopyKept(d, i); }
  }

  lemma StepKeepsCopies(start: Db, d: System, i: nat)
    requires SysInv(start, d) && CopiesKept(d) && CanStep(d.sync, i)
    ensures CopiesKept(DoStep(d, i))
  {
    ShapeKept(d, i);
    forall j | 0 <= j < |d.sync.threads| && HasLooked(DoStep(d, i).sync.threads[j]) ensures CopyKept(DoStep(d, i), j) {
      if j == i {
        OwnStepKeepsCopy(start, d, i);
      } else {
        assert CopyKept(d, j);
        if d.locals[j].contact.Some? { OthersKeepContact(start, d, j, i); }
      }
    }
  }

  lemma {:induction false} RunKeepsCopies(start: Db, d: System, sched: seq<nat>)
    requires SysInv(start, d) && CopiesKept(d) && Runs(d, sched)
    ensures CopiesKept(Reach(d, sched))
    decreases |sched|
  {
    if sched != [] {
      StepKeepsCopies(start, d, sched[0]);
      StepKeepsSysInv(start, d, sched[0]);
      RunKeepsCopies(start, DoStep(d, sched[0]), sched[1..]);
    }
  }

  lemma ReachableCopies(start: Db, progs: seq<seq<Section<Cmd>>>, d: System)
    requires Conforming(progs) && Reachable(start, progs, d)
    ensures CopiesKept(d)
  {
    var sched :| Runs(SystemStart(start, progs), sched) && Reach(SystemStart(start, progs), sched) == d;
    StartSysInv(start, progs);
    RunKeepsCopies(start, SystemStart(start, progs), sched);
  }

  /** The unlocked read of the buyers: in every reachable state, from its last wait until it releases its
      last lock, no step of another thread changes the name and address of an order's buyer once the
      buyer is there, and what the order has copied is what the buyer file says. */
  lemma UnlockedReadStaysCurrent(start: Db, progs: seq<seq<Section<Cmd>>>, d: System, i: nat, j: nat)
    requires Conforming(progs) && Reachable(start, progs, d) && i < |d.sync.threads| && HoldsOrders(d.sync.threads[i])
    requires j != i && Shape(d) && CanStep(d.sync, j)
    ensures var now := FoundContact(d.files.buyers, Job(d, i).buyerId);
      && (now.Some? ==> FoundContact(DoStep(d, j).files.buyers, Job(d, i).buyerId) == now)
      && (HasLooked(d.sync.threads[i]) && d.locals[i].contact.Some? ==> d.locals[i].contact == now)
  {
    ReachableInv(start, progs, d);
    ReachableCopies(start, progs, d);
    if HasLooked(d.sync.threads[i]) { assert CopyKept(d, i); }
    if FoundContact(d.files.buyers, Job(d, i).buyerId).Some? { OthersKeepContact(start, d, i, j); }
  }

  /** At most one row differs, it is the seller's own, and only the stated field does. */
  ghost predicate OwnRowOnly(before: seq<Product>, after: seq<Product>, c: Cmd)
    requires c.ModifyQuantity? || c.ModifyPrice?
  {
    && |after| == |before|
    && (forall k :: 0 <= k < |before| && after[k] != before[k] ==>
         && before[k].sellerId == c.sellerId && before[k].productId == c.productId
         && after[k] == if c.ModifyQuantity? then before[k].(quantity := c.quantity) else before[k].(price := c.price))
    && (forall j, k :: 0 <= j < k < |before| ==> after[j] == before[j] || after[k] == before[k])
  }

  lemma AccessOwnRow(c: Cmd, k: nat, l: Locals, f: Db)
    requires (c.ModifyQuantity? || c.ModifyPrice?) && k < Accesses(c) && CopiesCurrent(c, k, l, f)
    ensures var g := Access(c, k, l, f).1; g == f.(products := g.products) && OwnRowOnly(f.products, g.products, c)
  {
  }

  /** Ownership: whatever the other threads do between a seller's check and its store, a step of
      `modifyQuantity` or `modifyPrice` changes at most the stated field of one row of that product,
      and that row is the seller's own in the file it overwrites. */
  lemma SellersChangeOnlyTheirRows(start: Db, progs: seq<seq<Section<Cmd>>>, d: System, i: nat)
    requires Conforming(progs) && Reachable(start, progs, d)
    requires Shape(d) && CanStep(d.sync, i) && Pending(d.sync.threads[i])
    requires Job(d, i).ModifyQuantity? || Job(d, i).ModifyPrice?
    ensures var e := DoStep(d, i).files;
      e == d.files.(products := e.products) && OwnRowOnly(d.files.products, e.products, Job(d, i))
  {
    ReachableInv(start, progs, d);
    assert Current(d, i);
    assert d.sync.threads[i].todo[0] == SectionOf(Job(d, i));
    AccessOwnRow(Job(d, i), Done(d, i), d.locals[i], d.files);
  }
}
