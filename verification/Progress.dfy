/** Deadlock freedom and completion of the semaphore protocol. */
module Progress {
  import opened Locks

  ghost predicate RankedThreads<J>(s: State<J>, rank: Table -> nat) {
    forall i, k :: 0 <= i < |s.threads| && 0 <= k < |s.threads[i].todo| ==> s.threads[i].todo[k].Ranked(rank)
  }

  /** The only thing that can stop a mutex holder. */
  lemma HolderBlocked<J>(s: State<J>, h: nat, t: Table)
    requires Inv(s) && h < |s.threads| && Plays(s.threads[h], HoldsMutex, t) && !CanStep(s, h)
    ensures s.threads[h].pos == 2 && s.sync[t].readers == 1 && s.sync[t].wrt <= 0
    ensures Share(s.threads[h], t) == ReaderShare(2)
  {
    ReaderRoles(s.threads[h], t);
  }

  /** A mutex is never stuck without some thread able to move or a writer owning the table: its
      holder can step, or waits for `wrt` with the counter at 1, and then a writer owns it. */
  lemma MutexHolderMoves<J>(s: State<J>, t: Table) returns (h: nat)
    requires Inv(s) && s.sync[t].mutex == 0
    ensures h < |s.threads| && Plays(s.threads[h], HoldsMutex, t)
    ensures CanStep(s, h) || (s.sync[t].readers == 1 && Count(s.threads, Counted, t) == 1 + Lost(s, t) && Count(s.threads, Writes, t) == 1)
  {
    assert TableInv(s, t);
    h := CountWitness(s.threads, HoldsMutex, t);
    if !CanStep(s, h) {
      HolderBlocked(s, h, t);
      OthersInGroup(s, h, t);
    }
  }

  ghost predicate BoundedBy(rank: Table -> nat, top: nat) {
    forall t: Table :: rank(t) <= top
  }

  lemma RankBound(rank: Table -> nat) returns (top: nat)
    ensures BoundedBy(rank, top)
  {
    top := rank(CustomerInfo) + rank(SellerInfo) + rank(ProductInfo) + rank(BillingInfo) + rank(CustomerOrder);
    forall t: Table ensures rank(t) <= top {
      match t { case CustomerInfo => case SellerInfo => case ProductInfo => case BillingInfo => case CustomerOrder => }
    }
  }

  /** If a `wrt` semaphore is 0 then some thread can move. */
  lemma {:induction false} WrtProgress<J>(s: State<J>, t: Table, rank: Table -> nat, top: nat) returns (m: nat)
    requires Inv(s) && RankedThreads(s, rank) && BoundedBy(rank, top) && s.sync[t].wrt == 0
    ensures CanStep(s, m)
    decreases top - rank(t)
  {
    assert TableInv(s, t);
    if Count(s.threads, Writes, t) > 0 {
      // a writer owns it: follow the blocked writers up the rank
      m := CountWitness(s.threads, Writes, t);
      if !CanStep(s, m) {
        var u := CurrentOp(s, m).t;
        assert s.threads[m].todo[0].Ranked(rank) && TableInv(s, u);
        m := WrtProgress(s, u, rank, top);
      }
    } else {
      // the reader group owns it, and a member that waits to leave is itself counted
      m := CountWitness(s.threads, InGroup, t);
      CountMembers(s.threads, m, m, InGroup, t);
      if !CanStep(s, m) {
        m := MutexHolderMoves(s, t);
      }
    }
  }

  lemma Progress<J>(s: State<J>, rank: Table -> nat) returns (m: nat)
    requires Inv(s) && RankedThreads(s, rank) && !Finished(s)
    ensures CanStep(s, m)
  {
    var top := RankBound(rank);
    m :| 0 <= m < |s.threads| && s.threads[m].todo != [];
    if !CanStep(s, m) {
      var op := CurrentOp(s, m);
      assert TableInv(s, op.t);
      if op.MutexWait? {
        m := MutexHolderMoves(s, op.t);
      }
      if !CanStep(s, m) {
        m := WrtProgress(s, op.t, rank, top);
      }
    }
  }

  lemma {:induction false} RunKeepsRank<J>(s: State<J>, sched: seq<nat>, rank: Table -> nat)
    requires RankedThreads(s, rank) && Schedulable(s, sched)
    ensures RankedThreads(After(s, sched), rank)
    decreases |sched|
  {
    if sched != [] {
      RunKeepsRank(Step(s, sched[0]), sched[1..], rank);
    }
  }

  ghost predicate RankedPrograms<J>(progs: seq<seq<Section<J>>>, rank: Table -> nat) {
    forall i, k :: 0 <= i < |progs| && 0 <= k < |progs[i]| ==> progs[i][k].Ranked(rank)
  }

  /** The rank theorem: whatever the programs, if their nested `wrt` waits rise strictly in one
      common rank then no reachable state is stuck before every thread has finished, missed lookups
      or not. */
  lemma DeadlockFreedom<J>(progs: seq<seq<Section<J>>>, rank: Table -> nat, sched: seq<nat>)
    requires WellFormedPrograms(progs) && RankedPrograms(progs, rank) && Schedulable(Start(progs), sched)
    ensures var s := After(Start(progs), sched); Finished(s) || exists i :: CanStep(s, i)
  {
    StartInv(progs);
    RunKeepsInv(Start(progs), sched);
    RunKeepsRank(Start(progs), sched, rank);
    if !Finished(After(Start(progs), sched)) {
      var i := Progress(After(Start(progs), sched), rank);
    }
  }

  // ---------------------------------------------------------------------------------------
  // Completion.

  function Ops<J>(prog: seq<Section<J>>): nat {
    if prog == [] then 0 else prog[0].Length() + Ops(prog[1..])
  }

  /** Operations still to run. */
  function Remaining<J>(ths: seq<Thread<J>>): int {
    if ths == [] then 0 else Ops(ths[0].todo) - ths[0].pos + Remaining(ths[1..])
  }

  lemma RemainingUpdate<J>(ths: seq<Thread<J>>, i: nat, x: Thread<J>)
    requires i < |ths|
    ensures Remaining(ths[i := x])
         == Remaining(ths) - (Ops(ths[i].todo) - ths[i].pos) + (Ops(x.todo) - x.pos)
  {
    if i > 0 {
      RemainingUpdate(ths[1..], i - 1, x);
      assert ths[i := x][1..] == ths[1..][i - 1 := x];
    }
  }

  lemma RemainingNonNegative<J>(ths: seq<Thread<J>>)
    requires forall i :: 0 <= i < |ths| ==> ths[i].Valid()
    ensures Remaining(ths) >= 0
  {
  }

  lemma StepLowers<J>(s: State<J>, i: nat)
    requires CanStep(s, i)
    ensures Remaining(Step(s, i).threads) == Remaining(s.threads) - 1
  {
    RemainingUpdate(s.threads, i, s.threads[i].Next());
  }

  lemma {:induction false} RunLowers<J>(s: State<J>, sched: seq<nat>)
    requires Schedulable(s, sched)
    ensures Remaining(After(s, sched).threads) == Remaining(s.threads) - |sched|
    decreases |sched|
  {
    if sched != [] {
      StepLowers(s, sched[0]);
      RunLowers(Step(s, sched[0]), sched[1..]);
    }
  }

  lemma {:induction false} AllOps<J>(progs: seq<seq<Section<J>>>)
    ensures Remaining(Start(progs).threads) == TotalOps(progs)
  {
    if progs != [] {
      AllOps(progs[1..]);
      assert Start(progs).threads[1..] == Start(progs[1..]).threads;
    }
  }

  function TotalOps<J>(progs: seq<seq<Section<J>>>): nat {
    if progs == [] then 0 else Ops(progs[0]) + TotalOps(progs[1..])
  }

  /** Every semaphore back at 1, and every counter short by the missed lookups of its table. */
  ghost predicate FreeAgain<J>(progs: seq<seq<Section<J>>>, s: State<J>) {
    forall t: Table :: s.sync[t] == Sync(1, 1, 0 - Misses(progs, t))
  }

  lemma FreeWithoutMisses<J>(progs: seq<seq<Section<J>>>, s: State<J>)
    requires FreeAgain(progs, s) && forall t: Table :: NoMiss(progs, t)
    ensures s.sync == AllFree()
  {
    forall t: Table ensures s.sync[t] == FREE { NoMissNoDebt(progs, t); }
  }

  lemma FinishedIsFree<J>(s: State<J>, t: Table)
    requires Inv(s) && Finished(s)
    ensures s.sync[t] == Sync(1, 1, 0 - Lost(s, t)) && Owing(s.threads, t) == 0
  {
    assert TableInv(s, t);
    Counts(s, t);
    NothingOwing(s.threads, t);
  }

  lemma {:induction false} AllDone<J>(ths: seq<Thread<J>>)
    requires forall i :: 0 <= i < |ths| ==> ths[i].Valid() && ths[i].todo == []
    ensures Remaining(ths) == 0
  {
    if ths != [] { AllDone(ths[1..]); }
  }

  /** Completion with no fairness assumption: a run that cannot be extended has finished every
      thread, has executed exactly the programs' operations, and has all ten semaphores back at 1
      and every counter at minus the missed lookups of its table: 0 if there were none. */
  lemma {:induction false} Completion<J>(progs: seq<seq<Section<J>>>, rank: Table -> nat, sched: seq<nat>)
    requires WellFormedPrograms(progs) && RankedPrograms(progs, rank) && Schedulable(Start(progs), sched)
    ensures |sched| <= TotalOps(progs)
    ensures var s := After(Start(progs), sched);
      (forall i :: !CanStep(s, i)) <==> Finished(s)
    ensures var s := After(Start(progs), sched);
      Finished(s) ==> |sched| == TotalOps(progs) && FreeAgain(progs, s)
  {
    var s := After(Start(progs), sched);
    StartInv(progs);
    RunKeepsInv(Start(progs), sched);
    RunLowers(Start(progs), sched);
    AllOps(progs);
    RemainingNonNegative(s.threads);
    DeadlockFreedom(progs, rank, sched);
    if Finished(s) {
      AllDone(s.threads);
      forall t: Table ensures s.sync[t] == Sync(1, 1, 0 - Misses(progs, t)) {
        FinishedIsFree(s, t);
        ReachedBy(progs, sched);
        LostSoFar(progs, s, t);
      }
    }
  }

  /** The schedule leads to `s`, where every program has run all its operations and every semaphore
      is free. */
  ghost predicate CompleteRun<J>(progs: seq<seq<Section<J>>>, sched: seq<nat>, s: State<J>) {
    && Schedulable(Start(progs), sched) && After(Start(progs), sched) == s
    && Finished(s) && FreeAgain(progs, s) && |sched| == TotalOps(progs)
  }

  /** Any scheduler: run whichever enabled thread is picked until none is left. */
  method RunToCompletion<J>(progs: seq<seq<Section<J>>>, ghost rank: Table -> nat) returns (s: State<J>, sched: seq<nat>)
    requires WellFormedPrograms(progs) && RankedPrograms(progs, rank)
    ensures CompleteRun(progs, sched, s)
  {
    s, sched := Start(progs), [];
    while exists i :: 0 <= i < |s.threads| && CanStep(s, i)
      invariant Schedulable(Start(progs), sched) && After(Start(progs), sched) == s
      decreases TotalOps(progs) - |sched|
    {
      var i :| 0 <= i < |s.threads| && CanStep(s, i);
      Extend(Start(progs), sched, i);
      s, sched := Step(s, i), sched + [i];
      Completion(progs, rank, sched);
    }
    Completion(progs, rank, sched);
  }
}
