/** The path of `validateID` that does not find the id leaves the reader section twice: when the
    counters are right, and when a reader can be inside while a writer owns the table. */
module DoubleExit {
  import opened Locks

  ghost predicate CountersExact<J>(s: State<J>) {
    forall t: Table :: s.sync[t].readers == Count(s.threads, Counted, t)
  }

  // ---------------------------------------------------------------------------------------
  // One thread runs while the others stand still.

  /** Every other thread is between sections, or about to load `t`; and those readers are no more
      than the second exits that the counter of `t` has lost. */
  ghost predicate OthersQuiet<J>(s: State<J>, i: nat, t: Table) {
    && i < |s.threads|
    && (forall j :: 0 <= j < |s.threads| && j != i ==> s.threads[j].pos == 0 || Inside(s.threads[j], t))
    && Count(Without(s, i), InGroup, t) <= Lost(s, t)
  }

  predicate Inside<J>(th: Thread<J>, t: Table) {
    th.todo != [] && !th.todo[0].Write? && th.todo[0].t == t && th.pos == 4
  }

  function Without<J>(s: State<J>, i: nat): seq<Thread<J>>
    requires i < |s.threads|
  {
    s.threads[i := Thread([], 0)]
  }

  lemma {:induction false} QuietTally<J>(ths: seq<Thread<J>>, t: Table, u: Table)
    requires forall j :: 0 <= j < |ths| ==> ths[j].pos == 0 || Inside(ths[j], t)
    ensures var n := TallyOf(ths, u);
      n.holding == n.second == n.writing == 0 && n.counted == n.inGroup && (u != t ==> n.inGroup == 0)
  {
    if ths != [] { QuietTally(ths[1..], t, u); }
  }

  lemma WithoutTally<J>(s: State<J>, i: nat, u: Table)
    requires i < |s.threads|
    ensures TallyOf(s.threads, u) == TallyOf(Without(s, i), u).Plus(Share(s.threads[i], u))
  {
    TallyUpdate(s.threads, i, Thread([], 0), u);
  }

  /** What the others amount to on a table: nothing but readers inside, no more than it has lost. */
  predicate Quiet(n: Tally, lost: int) {
    n.holding == n.second == n.writing == 0 && n.counted == n.inGroup <= lost
  }

  lemma OthersTally<J>(s: State<J>, i: nat, t: Table, u: Table)
    requires OthersQuiet(s, i, t) && Lost(s, u) >= 0
    ensures Quiet(TallyOf(Without(s, i), u), Lost(s, u))
  {
    QuietTally(Without(s, i), t, u);
  }

  lemma QuietReaderGoes(y: Sync, n: Tally, t: Table, pos: nat)
    requires pos < 13 && n.Plus(ReaderShare(pos)).Balances(y) && Quiet(n, n.Plus(ReaderShare(pos)).Lost(y))
    ensures OpEnabled(y, ReaderOp(t, pos))
  {
  }

  lemma AloneReaderGoes<J>(s: State<J>, i: nat, t: Table)
    requires Inv(s) && OthersQuiet(s, i, t) && s.threads[i].todo != [] && !s.threads[i].todo[0].Write?
    ensures CanStep(s, i)
  {
    var u := s.threads[i].todo[0].t;
    assert TableInv(s, u);
    ReaderRoles(s.threads[i], u);
    WithoutTally(s, i, u);
    OthersTally(s, i, t, u);
    QuietReaderGoes(s.sync[u], TallyOf(Without(s, i), u), u, s.threads[i].pos);
  }

  lemma AloneWriterGoes<J>(s: State<J>, i: nat, t: Table)
    requires Inv(s) && OthersQuiet(s, i, t) && s.threads[i].todo != [] && s.threads[i].todo[0].Write?
    ensures CanStep(s, i)
  {
    var op := CurrentOp(s, i);
    WriterRoles(s.threads[i], CustomerInfo);
    if op.WrtWait? {
      assert TableInv(s, op.t);
      WriterRoles(s.threads[i], op.t);
      WithoutTally(s, i, op.t);
      OthersTally(s, i, t, op.t);
    }
  }

  lemma StepStaysQuiet<J>(s: State<J>, i: nat, t: Table)
    requires Inv(s) && OthersQuiet(s, i, t) && CanStep(s, i)
    ensures Inv(Step(s, i)) && OthersQuiet(Step(s, i), i, t) && Lost(Step(s, i), t) >= Lost(s, t)
  {
    StepKeepsInv(s, i);
    StepTable(s, i, t);
    assert Without(Step(s, i), i) == Without(s, i);
  }

  /** The goal of the rest of the run is the goal. */
  lemma NextTarget<J>(s: State<J>, i: nat, left: nat, n: nat, pos: nat)
    requires CanStep(s, i) && n <= |s.threads[i].todo|
    requires s.threads[i].pos + 1 == s.threads[i].todo[0].Length() ==> n > 0
    requires left == if s.threads[i].pos + 1 == s.threads[i].todo[0].Length() then n - 1 else n
    ensures var e, goal := Step(s, i), Thread(s.threads[i].todo[n..], pos);
      && left <= |e.threads[i].todo| && e.threads[i].todo[left..] == s.threads[i].todo[n..]
      && e.threads[i := goal] == s.threads[i := goal]
  {
  }

  /** A thread that runs alone reaches any operation of any of its sections. */
  lemma {:induction false} RunTo<J>(s: State<J>, i: nat, t: Table, n: nat, pos: nat) returns (sched: seq<nat>)
    requires Inv(s) && OthersQuiet(s, i, t) && n <= |s.threads[i].todo|
    requires if n == |s.threads[i].todo| then pos == 0 else pos < s.threads[i].todo[n].Length()
    requires n == 0 ==> s.threads[i].pos <= pos
    ensures Schedulable(s, sched) && Inv(After(s, sched)) && Lost(After(s, sched), t) >= Lost(s, t)
    ensures After(s, sched).threads == s.threads[i := Thread(s.threads[i].todo[n..], pos)]
    decreases |s.threads[i].todo|, if s.threads[i].todo == [] then 0 else s.threads[i].todo[0].Length() - s.threads[i].pos
  {
    var th := s.threads[i];
    if n == 0 && th.pos == pos {
      sched := [];
      assert s.threads[i := th] == s.threads && th.todo[0..] == th.todo;
    } else {
      if th.todo[0].Write? { AloneWriterGoes(s, i, t); } else { AloneReaderGoes(s, i, t); }
      var e := Step(s, i);
      StepStaysQuiet(s, i, t);
      var left := if th.pos + 1 == th.todo[0].Length() then n - 1 else n;
      NextTarget(s, i, left, n, pos);
      var rest := RunTo(e, i, t, left, pos);
      sched := [i] + rest;
    }
  }

  // ---------------------------------------------------------------------------------------
  // The counters.

  lemma {:induction false} OwedFrom<J>(prog: seq<Section<J>>, n: nat, t: Table)
    requires n <= |prog|
    ensures Owed(prog[n..], 0, t) <= Owed(prog, 0, t)
    ensures n > 0 && prog[n - 1] == ReadMiss(t) ==> Owed(prog[n..], 0, t) < Owed(prog, 0, t)
  {
    if n == 0 {
      assert prog[0..] == prog;
    } else {
      OwedFrom(prog[1..], n - 1, t);
      assert prog[1..][n - 1..] == prog[n..];
    }
  }

  /** Alone, a thread gets past its missed lookup, which the counter has then lost. */
  lemma {:induction false} RunPastMiss<J>(progs: seq<seq<Section<J>>>, i: nat, m: nat) returns (sched: seq<nat>)
    requires WellFormedPrograms(progs) && i < |progs| && m < |progs[i]| && progs[i][m].ReadMiss?
    ensures var start, t := Start(progs), progs[i][m].t;
      && Schedulable(start, sched) && Inv(After(start, sched)) && Lost(After(start, sched), t) >= 1
      && After(start, sched).threads == start.threads[i := Thread(progs[i][m + 1..], 0)]
  {
    var start, t := Start(progs), progs[i][m].t;
    StartInv(progs);
    Counts(State(start.sync, Without(start, i)), t);
    sched := RunTo(start, i, t, m + 1, 0);
    RunKeepsDebt(start, sched, t);
    OwingUpdate(start.threads, i, Thread(progs[i][m + 1..], 0), t);
    OwedFrom(progs[i], m + 1, t);
  }

  lemma MissBreaksCounter<J>(progs: seq<seq<Section<J>>>, i: nat, m: nat) returns (sched: seq<nat>)
    requires WellFormedPrograms(progs) && i < |progs| && m < |progs[i]| && progs[i][m].ReadMiss?
    ensures Schedulable(Start(progs), sched) && !CountersExact(After(Start(progs), sched))
  {
    sched := RunPastMiss(progs, i, m);
    var s, t := After(Start(progs), sched), progs[i][m].t;
    Counts(s, t);
    assert s.sync[t].readers != Count(s.threads, Counted, t);
  }

  /** When the reader counters are right: they equal the number of readers inside in every
      reachable state exactly when no thread ever takes the double exit. */
  lemma {:induction false} CountersExactIff<J>(progs: seq<seq<Section<J>>>)
    requires WellFormedPrograms(progs)
    ensures (forall sched :: Schedulable(Start(progs), sched) ==> CountersExact(After(Start(progs), sched)))
       <==> (forall t: Table :: NoMiss(progs, t))
  {
    if t: Table :| !NoMiss(progs, t) {
      var i, k :| 0 <= i < |progs| && 0 <= k < |progs[i]| && progs[i][k] == ReadMiss(t);
      var sched := MissBreaksCounter(progs, i, k);
    } else {
      forall sched, t: Table | Schedulable(Start(progs), sched)
        ensures After(Start(progs), sched).sync[t].readers == Count(After(Start(progs), sched).threads, Counted, t)
      {
        ReachedBy(progs, sched);
        ReaderWriterExclusion(progs, After(Start(progs), sched), t);
      }
    }
  }

  // ---------------------------------------------------------------------------------------
  // The overlap.

  /** Section `m` of thread `i` is a missed lookup of `t`, section `k` of thread `j` another reader
      section and section `l` of another thread `c` a writer of it, neither of them ahead of the
      missed lookup in its own thread. */
  ghost predicate MissReaderWriter<J>(progs: seq<seq<Section<J>>>, t: Table, i: nat, m: nat, j: nat, k: nat, c: nat, l: nat) {
    && i < |progs| && m < |progs[i]| && progs[i][m] == ReadMiss(t)
    && j < |progs| && k < |progs[j]| && !progs[j][k].Write? && progs[j][k].t == t
    && c < |progs| && l < |progs[c]| && progs[c][l].Write? && t in progs[c][l].waits
    && j != c && (j == i ==> m < k) && (c == i ==> m < l)
  }

  ghost predicate HasMissReaderWriter<J>(progs: seq<seq<Section<J>>>, t: Table) {
    exists i, m, j, k, c, l :: MissReaderWriter(progs, t, i, m, j, k, c, l)
  }

  ghost predicate CanOverlap<J>(progs: seq<seq<Section<J>>>, t: Table) {
    exists sched :: Schedulable(Start(progs), sched) && Overlap(After(Start(progs), sched), t)
  }

  /** The reader gets to its load without `wrt`. */
  lemma {:induction false} ThenReader<J>(s: State<J>, j: nat, t: Table, k: nat) returns (sched: seq<nat>)
    requires Inv(s) && Lost(s, t) >= 1 && forall x :: 0 <= x < |s.threads| ==> s.threads[x].pos == 0
    requires j < |s.threads| && k < |s.threads[j].todo| && !s.threads[j].todo[k].Write? && s.threads[j].todo[k].t == t
    ensures Schedulable(s, sched) && Inv(After(s, sched)) && Lost(After(s, sched), t) >= 1
    ensures After(s, sched).threads == s.threads[j := Thread(s.threads[j].todo[k..], 4)]
  {
    Counts(State(s.sync, Without(s, j)), t);
    sched := RunTo(s, j, t, k, 4);
  }

  /** The writer gets the table although the reader is inside. */
  lemma {:induction false} ThenWriter<J>(s: State<J>, j: nat, t: Table, c: nat, l: nat) returns (sched: seq<nat>)
    requires Inv(s) && Lost(s, t) >= 1 && forall x :: 0 <= x < |s.threads| && x != j ==> s.threads[x].pos == 0
    requires j < |s.threads| && Inside(s.threads[j], t)
    requires c < |s.threads| && c != j && l < |s.threads[c].todo| && s.threads[c].todo[l].Write? && t in s.threads[c].todo[l].waits
    ensures Schedulable(s, sched) && Overlap(After(s, sched), t)
  {
    var sec := s.threads[c].todo[l];
    var x :| 0 <= x < |sec.waits| && sec.waits[x] == t;
    assert sec.waits[0] in sec.posts;
    OneInside(s, j, c, t);
    sched := RunTo(s, c, t, l, x + 1);
    var e := After(s, sched);
    assert e.threads[c].todo[0] == sec && e.threads[j] == s.threads[j];
    assert Plays(e.threads[c], Writes, t) && Plays(e.threads[j], InGroup, t);
  }

  lemma OneInside<J>(s: State<J>, j: nat, c: nat, t: Table)
    requires j < |s.threads| && c < |s.threads| && c != j && Inside(s.threads[j], t)
    requires forall x :: 0 <= x < |s.threads| && x != j ==> s.threads[x].pos == 0
    ensures Count(Without(s, c), InGroup, t) == 1
  {
    var nobody := Without(s, c)[j := Thread([], 0)];
    CountUpdate(Without(s, c), j, Thread([], 0), InGroup, t);
    Counts(State(s.sync, nobody), t);
  }

  lemma ReaderAndWriterOverlap<J>(s: State<J>, t: Table, j: nat, k: nat, c: nat, l: nat)
    requires Inv(s) && Lost(s, t) >= 1 && forall x :: 0 <= x < |s.threads| ==> s.threads[x].pos == 0
    requires j < |s.threads| && k < |s.threads[j].todo| && !s.threads[j].todo[k].Write? && s.threads[j].todo[k].t == t
    requires c < |s.threads| && c != j && l < |s.threads[c].todo| && s.threads[c].todo[l].Write? && t in s.threads[c].todo[l].waits
    ensures exists sched :: Schedulable(s, sched) && Overlap(After(s, sched), t)
  {
    var reader := ThenReader(s, j, t, k);
    var writer := ThenWriter(After(s, reader), j, t, c, l);
    AfterJoin(s, reader, writer);
  }

  lemma SectionsOverlap<J>(progs: seq<seq<Section<J>>>, t: Table, i: nat, m: nat, j: nat, k: nat, c: nat, l: nat)
    requires WellFormedPrograms(progs) && MissReaderWriter(progs, t, i, m, j, k, c, l)
    ensures CanOverlap(progs, t)
  {
    var miss := RunPastMiss(progs, i, m);
    var s := After(Start(progs), miss);
    ReaderAndWriterOverlap(s, t, j, if j == i then k - m - 1 else k, c, if c == i then l - m - 1 else l);
    var more :| Schedulable(s, more) && Overlap(After(s, more), t);
    AfterJoin(Start(progs), miss, more);
  }

  /** Where a thread is in its program. */
  function Behind<J>(prog: seq<Section<J>>, th: Thread<J>): int { |prog| - |th.todo| }

  ghost predicate OnProgram<J>(prog: seq<Section<J>>, th: Thread<J>) {
    Behind(prog, th) >= 0 && th.todo == prog[Behind(prog, th)..]
  }

  ghost predicate OnPrograms<J>(progs: seq<seq<Section<J>>>, s: State<J>) {
    |s.threads| == |progs| && forall i :: 0 <= i < |progs| ==> OnProgram(progs[i], s.threads[i])
  }

  lemma {:induction false} RunStaysOnPrograms<J>(progs: seq<seq<Section<J>>>, s: State<J>, sched: seq<nat>)
    requires OnPrograms(progs, s) && Schedulable(s, sched)
    ensures OnPrograms(progs, After(s, sched))
    decreases |sched|
  {
    if sched != [] {
      assert OnProgram(progs[sched[0]], s.threads[sched[0]]);
      RunStaysOnPrograms(progs, Step(s, sched[0]), sched[1..]);
    }
  }

  /** A program that owes less than at its start has a missed lookup behind it. */
  lemma {:induction false} MissBehind<J>(prog: seq<Section<J>>, th: Thread<J>, t: Table) returns (m: nat)
    requires OnProgram(prog, th) && Owed(th.todo, th.pos, t) < Owed(prog, 0, t)
    ensures m < |prog| && prog[m] == ReadMiss(t)
    ensures m < Behind(prog, th) || (m == Behind(prog, th) && th.pos > 11)
    decreases |prog|
  {
    m := 0;
    if Behind(prog, th) > 0 && prog[0] != ReadMiss(t) {
      assert prog[1..][Behind(prog, th) - 1..] == th.todo;
      var n := MissBehind(prog[1..], th, t);
      m := n + 1;
    }
  }

  lemma {:induction false} SomebodyOwesLess<J>(a: seq<Thread<J>>, b: seq<Thread<J>>, t: Table) returns (i: nat)
    requires |a| == |b| && Owing(a, t) < Owing(b, t)
    ensures i < |a| && Owed(a[i].todo, a[i].pos, t) < Owed(b[i].todo, b[i].pos, t)
  {
    i := 0;
    if Owed(a[0].todo, a[0].pos, t) >= Owed(b[0].todo, b[0].pos, t) {
      var k := SomebodyOwesLess(a[1..], b[1..], t);
      i := k + 1;
    }
  }

  lemma OverlapComesAfterMiss<J>(progs: seq<seq<Section<J>>>, t: Table, s: State<J>) returns (i: nat, m: nat)
    requires OnPrograms(progs, s) && Owing(s.threads, t) < Misses(progs, t)
    ensures i < |progs| && m < |progs[i]| && progs[i][m] == ReadMiss(t)
    ensures m < Behind(progs[i], s.threads[i]) || (m == Behind(progs[i], s.threads[i]) && s.threads[i].pos > 11)
  {
    i := SomebodyOwesLess(s.threads, Start(progs).threads, t);
    assert OnProgram(progs[i], s.threads[i]);
    m := MissBehind(progs[i], s.threads[i], t);
  }

  /** The section a thread is in. */
  lemma InSection<J>(progs: seq<seq<Section<J>>>, s: State<J>, i: nat) returns (k: nat)
    requires OnPrograms(progs, s) && i < |progs| && s.threads[i].todo != []
    ensures k < |progs[i]| && k == Behind(progs[i], s.threads[i]) && progs[i][k] == s.threads[i].todo[0]
  {
    assert OnProgram(progs[i], s.threads[i]);
    k := Behind(progs[i], s.threads[i]);
  }

  lemma OverlapHasSections<J>(progs: seq<seq<Section<J>>>, t: Table, s: State<J>)
    requires OnPrograms(progs, s) && Owing(s.threads, t) < Misses(progs, t) && Overlap(s, t)
    ensures HasMissReaderWriter(progs, t)
  {
    var i, m := OverlapComesAfterMiss(progs, t, s);
    var c :| 0 <= c < |s.threads| && Plays(s.threads[c], Writes, t);
    var j :| 0 <= j < |s.threads| && Plays(s.threads[j], InGroup, t);
    var l := InSection(progs, s, c);
    var k := InSection(progs, s, j);
    assert MissReaderWriter(progs, t, i, m, j, k, c, l);
  }

  /** When readers and writers of a table can overlap: exactly when some thread misses a lookup of it
      and another reader section and another thread's writer section of it are not ahead of that. */
  lemma {:induction false} OverlapIff<J>(progs: seq<seq<Section<J>>>, t: Table)
    requires WellFormedPrograms(progs)
    ensures CanOverlap(progs, t) <==> HasMissReaderWriter(progs, t)
  {
    if HasMissReaderWriter(progs, t) {
      var i: nat, m: nat, j: nat, k: nat, c: nat, l: nat :| MissReaderWriter(progs, t, i, m, j, k, c, l);
      SectionsOverlap(progs, t, i, m, j, k, c, l);
    }
    if CanOverlap(progs, t) { OverlapNeedsSections(progs, t); }
  }

  lemma {:induction false} OverlapNeedsSections<J>(progs: seq<seq<Section<J>>>, t: Table)
    requires WellFormedPrograms(progs) && CanOverlap(progs, t)
    ensures HasMissReaderWriter(progs, t)
  {
    var sched :| Schedulable(Start(progs), sched) && Overlap(After(Start(progs), sched), t);
    OverlapIsAfterMiss(progs, sched, t);
    RunStaysOnPrograms(progs, Start(progs), sched);
    OverlapHasSections(progs, t, After(Start(progs), sched));
  }

  lemma {:induction false} OverlapIsAfterMiss<J>(progs: seq<seq<Section<J>>>, sched: seq<nat>, t: Table)
    requires WellFormedPrograms(progs) && Schedulable(Start(progs), sched) && Overlap(After(Start(progs), sched), t)
    ensures Owing(After(Start(progs), sched).threads, t) < Misses(progs, t)
  {
    var s := After(Start(progs), sched);
    ReachedBy(progs, sched);
    LostSoFar(progs, s, t);
    if Lost(s, t) == 0 { ExcludedUntilLost(s, t); }
  }

  /** The smallest case: after one missed lookup a reader overlaps a writer. */
  lemma MissLetsReaderOverlapWriter<J>(t: Table, n: nat, job: J)
    ensures CanOverlap([[ReadMiss(t), Read(t)], [Write([t], n, [t], job)]], t)
  {
    var progs := [[ReadMiss(t), Read(t)], [Write([t], n, [t], job)]];
    assert MissReaderWriter(progs, t, 0, 0, 0, 1, 1, 0);
    OverlapIff(progs, t);
  }
}
