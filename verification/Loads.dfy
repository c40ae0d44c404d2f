/** The locks and the file accesses: what is held while a thread loads or works. */
module Loads {
  import opened Locks

  /** A reader loads as a member of its group, and a writer makes its accesses only while it holds all it
      waited for. */
  lemma LoadsInside<J>(s: State<J>, i: nat, t: Table)
    requires Inv(s) && Running(s, i)
    ensures CurrentOp(s, i) == Load(t) ==> Plays(s.threads[i], InGroup, t)
    ensures CurrentOp(s, i).Work? && s.threads[i].todo[0].Write? && t in s.threads[i].todo[0].waits ==> Plays(s.threads[i], Writes, t)
  {
  }

  /** In every reachable state: while a thread is about to load a table whose lookups do not miss, no
      thread holds the table for writing. */
  lemma {:induction false} NobodyWritesDuringLoad<J>(progs: seq<seq<Section<J>>>, s: State<J>, i: nat, j: nat, t: Table)
    requires WellFormedPrograms(progs) && NoMiss(progs, t) && Reached(progs, s)
    requires Running(s, i) && CurrentOp(s, i) == Load(t) && j < |s.threads|
    ensures Plays(s.threads[i], InGroup, t) && !Plays(s.threads[j], Writes, t)
  {
    LostSoFar(progs, s, t);
    LoadsInside(s, i, t);
    ReaderWriterExclusion(progs, s, t);
  }
}
