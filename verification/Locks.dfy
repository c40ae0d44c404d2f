/** The semaphore protocol of the data server as a step machine over any number of threads.

    A thread runs a list of sections. Each section is a fixed sequence of atomic operations on
    the ten binary semaphores and five reader counters; `OpAt` lists them in program order. The
    semaphores follow sem_wait and sem_post of IEEE Std 1003.1-2017: a wait blocks at zero. */
module Locks {

  datatype Table = CustomerInfo | SellerInfo | ProductInfo | BillingInfo | CustomerOrder

  /** The `wrt` semaphore, the `Mutex` semaphore and the reader counter of one table. */
  datatype Sync = Sync(wrt: int, mutex: int, readers: int)

  const FREE := Sync(1, 1, 0)

  type SyncMap = m: map<Table, Sync> | forall t: Table :: t in m
    witness AllFree()

  function AllFree(): (m: map<Table, Sync>)
    ensures forall t: Table :: t in m && m[t] == FREE
  {
    var m := map[CustomerInfo := FREE, SellerInfo := FREE, ProductInfo := FREE, BillingInfo := FREE, CustomerOrder := FREE];
    assert forall t: Table :: t.CustomerInfo? || t.SellerInfo? || t.ProductInfo? || t.BillingInfo? || t.CustomerOrder? ==> t in m;
    m
  }

  datatype Op =
    | MutexWait(t: Table)
    | CountUp(t: Table)
    | FirstWait(t: Table) // if(counter == 1) sem_wait(wrt)
    | MutexPost(t: Table)
    | Load(t: Table)
    | CountDown(t: Table)
    | LastPost(t: Table) // if(counter == 0) sem_post(wrt)
    | WrtWait(t: Table)
    | WrtPost(t: Table)
    | Work

  function ReaderOp(t: Table, pos: nat): Op {
    if pos == 0 || pos == 5 || pos == 9 then MutexWait(t)
    else if pos == 1 then CountUp(t)
    else if pos == 2 then FirstWait(t)
    else if pos == 3 || pos == 8 || pos == 12 then MutexPost(t)
    else if pos == 4 then Load(t)
    else if pos == 6 || pos == 10 then CountDown(t)
    else LastPost(t)
  }

  /** `Read` is the balanced reader section. `ReadMiss` is the path of `validateID` that does not
      find the id: it leaves the reader section twice. `Write` waits for its `wrt` semaphores in
      the given order, does `work` file accesses, and posts them; `job` names the command. */
  datatype Section<J> =
    | Read(t: Table)
    | ReadMiss(t: Table)
    | Write(waits: seq<Table>, work: nat, posts: seq<Table>, job: J)
  {
    function Length(): nat {
      match this
      case Read(_) => 9
      case ReadMiss(_) => 13
      case Write(w, n, p, _) => |w| + n + |p|
    }

    function OpAt(pos: nat): Op
      requires pos < Length()
    {
      match this
      case Write(w, n, p, _) =>
        if pos < |w| then WrtWait(w[pos]) else if pos < |w| + n then Work else WrtPost(p[pos - |w| - n])
      case _ => ReaderOp(t, pos)
    }

    /** What the source's sections all satisfy: a writer waits for at least one table, for no
        table twice, and posts exactly what it waited for. */
    ghost predicate WellFormed() {
      Write? ==>
        && waits != []
        && (forall i, j :: 0 <= i < j < |waits| ==> waits[i] != waits[j])
        && (forall i, j :: 0 <= i < j < |posts| ==> posts[i] != posts[j])
        && (forall t :: t in waits <==> t in posts)
    }

    ghost predicate Ranked(rank: Table -> nat) {
      Write? ==> forall i, j :: 0 <= i < j < |waits| ==> rank(waits[i]) < rank(waits[j])
    }
  }

  /** The sections still to run; `pos` counts the operations already done in the first one. */
  datatype Thread<J> = Thread(todo: seq<Section<J>>, pos: nat) {
    ghost predicate Valid() {
      && (forall k :: 0 <= k < |todo| ==> todo[k].WellFormed())
      && (if todo == [] then pos == 0 else pos < todo[0].Length())
    }

    function Next(): Thread<J>
      requires todo != [] && pos < todo[0].Length()
    {
      if pos + 1 == todo[0].Length() then Thread(todo[1..], 0) else Thread(todo, pos + 1)
    }
  }

  datatype State<J> = State(sync: SyncMap, threads: seq<Thread<J>>)

  predicate OpEnabled(y: Sync, op: Op) {
    match op
    case MutexWait(_) => y.mutex > 0
    case FirstWait(_) => y.readers == 1 ==> y.wrt > 0
    case WrtWait(_) => y.wrt > 0
    case _ => true
  }

  predicate Enabled(m: SyncMap, op: Op) {
    op.Work? || OpEnabled(m[op.t], op)
  }

  function ExecOne(s: Sync, op: Op): Sync {
    match op
    case MutexWait(_) => s.(mutex := s.mutex - 1)
    case CountUp(_) => s.(readers := s.readers + 1)
    case FirstWait(_) => if s.readers == 1 then s.(wrt := s.wrt - 1) else s
    case MutexPost(_) => s.(mutex := s.mutex + 1)
    case CountDown(_) => s.(readers := s.readers - 1)
    case LastPost(_) => if s.readers == 0 then s.(wrt := s.wrt + 1) else s
    case WrtWait(_) => s.(wrt := s.wrt - 1)
    case WrtPost(_) => s.(wrt := s.wrt + 1)
    case _ => s
  }

  function Exec(m: SyncMap, op: Op): SyncMap {
    if op.Work? then m else m[op.t := ExecOne(m[op.t], op)]
  }

  predicate Running<J>(s: State<J>, i: nat) {
    i < |s.threads| && s.threads[i].todo != [] && s.threads[i].pos < s.threads[i].todo[0].Length()
  }

  function CurrentOp<J>(s: State<J>, i: nat): Op
    requires Running(s, i)
  {
    s.threads[i].todo[0].OpAt(s.threads[i].pos)
  }

  predicate CanStep<J>(s: State<J>, i: nat) {
    Running(s, i) && Enabled(s.sync, CurrentOp(s, i))
  }

  function Step<J>(s: State<J>, i: nat): State<J>
    requires CanStep(s, i)
  {
    State(Exec(s.sync, CurrentOp(s, i)), s.threads[i := s.threads[i].Next()])
  }

  /** A schedule names the thread that moves at each step. */
  predicate Schedulable<J>(s: State<J>, sched: seq<nat>)
    decreases |sched|
  {
    sched == [] || (CanStep(s, sched[0]) && Schedulable(Step(s, sched[0]), sched[1..]))
  }

  function After<J>(s: State<J>, sched: seq<nat>): State<J>
    requires Schedulable(s, sched)
    decreases |sched|
  {
    if sched == [] then s else After(Step(s, sched[0]), sched[1..])
  }

  lemma {:induction false} AfterJoin<J>(s: State<J>, a: seq<nat>, b: seq<nat>)
    requires Schedulable(s, a) && Schedulable(After(s, a), b)
    ensures Schedulable(s, a + b) && After(s, a + b) == After(After(s, a), b)
    decreases |a|
  {
    if a == [] {
      assert a + b == b;
    } else {
      var n := Step(s, a[0]);
      AfterJoin(n, a[1..], b);
      assert (a + b)[0] == a[0] && (a + b)[1..] == a[1..] + b;
      assert After(s, a) == After(n, a[1..]);
    }
  }

  lemma Extend<J>(s: State<J>, sched: seq<nat>, i: nat)
    requires Schedulable(s, sched) && CanStep(After(s, sched), i)
    ensures Schedulable(s, sched + [i]) && After(s, sched + [i]) == Step(After(s, sched), i)
  {
    assert After(Step(After(s, sched), i), []) == Step(After(s, sched), i);
    AfterJoin(s, sched, [i]);
  }

  /** The server's start: every semaphore 1, every counter 0, every thread before its program. */
  function Start<J>(progs: seq<seq<Section<J>>>): State<J> {
    State(AllFree(), seq(|progs|, i requires 0 <= i < |progs| => Thread(progs[i], 0)))
  }

  ghost predicate Finished<J>(s: State<J>) {
    forall i :: 0 <= i < |s.threads| ==> s.threads[i].todo == []
  }

  // ---------------------------------------------------------------------------------------
  // Roles: what a thread's position means for one table.

  /** `SecondExit` is the moment between the second decrement of a double exit and the test after it. */
  datatype Role = HoldsMutex | Counted | InGroup | SecondExit | Writes

  predicate Plays<J>(th: Thread<J>, r: Role, t: Table) {
    && th.todo != []
    && match th.todo[0] {
       case Write(w, n, p, _) =>
         && r == Writes
         && (exists k :: 0 <= k < |w| && k < th.pos && w[k] == t)
         && !(exists k :: 0 <= k < |p| && k < th.pos - |w| - n && p[k] == t)
       case _ => th.todo[0].t == t && ReaderPlays(th.pos, r)
       }
  }

  predicate ReaderPlays(pos: nat, r: Role) {
    match r
    case HoldsMutex => 1 <= pos <= 3 || 6 <= pos <= 8 || 10 <= pos <= 12
    case Counted => 2 <= pos <= 6
    case InGroup => 3 <= pos <= 7
    case SecondExit => pos == 11
    case Writes => false
  }

  function One(b: bool): nat { if b then 1 else 0 }

  function Count<J>(ths: seq<Thread<J>>, r: Role, t: Table): nat {
    if ths == [] then 0 else (if Plays(ths[0], r, t) then 1 else 0) + Count(ths[1..], r, t)
  }

  lemma CountUpdate<J>(ths: seq<Thread<J>>, i: nat, x: Thread<J>, r: Role, t: Table)
    requires i < |ths|
    ensures Count(ths[i := x], r, t)
         == Count(ths, r, t) - (if Plays(ths[i], r, t) then 1 else 0) + (if Plays(x, r, t) then 1 else 0)
  {
    if i > 0 {
      CountUpdate(ths[1..], i - 1, x, r, t);
      assert ths[i := x][1..] == ths[1..][i - 1 := x];
    }
  }

  lemma CountMembers<J>(ths: seq<Thread<J>>, i: nat, j: nat, r: Role, t: Table)
    requires i <= j < |ths| && Plays(ths[i], r, t) && Plays(ths[j], r, t)
    ensures Count(ths, r, t) >= if i < j then 2 else 1
  {
    if i > 0 {
      CountMembers(ths[1..], i - 1, j - 1, r, t);
    } else if j > 0 {
      CountMembers(ths[1..], j - 1, j - 1, r, t);
    }
  }

  lemma CountWitness<J>(ths: seq<Thread<J>>, r: Role, t: Table) returns (i: nat)
    requires Count(ths, r, t) > 0
    ensures i < |ths| && Plays(ths[i], r, t)
  {
    i := 0;
    if !Plays(ths[0], r, t) {
      var k := CountWitness(ths[1..], r, t);
      i := k + 1;
    }
  }

  /** At most one thread can play a role whose count is at most one. */
  lemma Unique<J>(ths: seq<Thread<J>>, i: nat, j: nat, r: Role, t: Table)
    requires i < |ths| && j < |ths| && Plays(ths[i], r, t) && Plays(ths[j], r, t)
    requires Count(ths, r, t) <= 1
    ensures i == j
  {
    if i < j { CountMembers(ths, i, j, r, t); } else { CountMembers(ths, j, i, r, t); }
  }

  lemma {:induction false} SameCount<J>(ths: seq<Thread<J>>, r: Role, q: Role, t: Table)
    requires forall i :: 0 <= i < |ths| ==> (Plays(ths[i], r, t) <==> Plays(ths[i], q, t))
    ensures Count(ths, r, t) == Count(ths, q, t)
  {
    if ths != [] { SameCount(ths[1..], r, q, t); }
  }

  // ---------------------------------------------------------------------------------------
  // The invariant of every reachable state.

  /** How many threads play each role for a table. */
  datatype Tally = Tally(holding: int, counted: int, inGroup: int, second: int, writing: int) {
    /** The second exits completed so far: what the counter lacks against the readers it should count. */
    function Lost(y: Sync): int { counted - second - y.readers }

    /** The reader group owns `wrt` while it has more members than second exits have taken away. */
    predicate Balances(y: Sync) {
      && y.mutex == 1 - holding >= 0
      && Lost(y) >= 0
      && y.wrt == 1 - writing - One(inGroup > Lost(y)) >= 0
    }

    function Less(x: Tally): Tally {
      Tally(holding - x.holding, counted - x.counted, inGroup - x.inGroup, second - x.second, writing - x.writing)
    }

    function Plus(x: Tally): Tally {
      Tally(holding + x.holding, counted + x.counted, inGroup + x.inGroup, second + x.second, writing + x.writing)
    }
  }

  function TallyOf<J>(ths: seq<Thread<J>>, t: Table): Tally {
    Tally(Count(ths, HoldsMutex, t), Count(ths, Counted, t), Count(ths, InGroup, t), Count(ths, SecondExit, t), Count(ths, Writes, t))
  }

  /** One thread's share. */
  function Share<J>(th: Thread<J>, t: Table): Tally {
    Tally(One(Plays(th, HoldsMutex, t)), One(Plays(th, Counted, t)), One(Plays(th, InGroup, t)), One(Plays(th, SecondExit, t)),
          One(Plays(th, Writes, t)))
  }

  function ReaderShare(pos: nat): Tally {
    Tally(One(ReaderPlays(pos, HoldsMutex)), One(ReaderPlays(pos, Counted)), One(ReaderPlays(pos, InGroup)),
          One(ReaderPlays(pos, SecondExit)), 0)
  }

  function Lost<J>(s: State<J>, t: Table): int {
    TallyOf(s.threads, t).Lost(s.sync[t])
  }

  ghost predicate TableInv<J>(s: State<J>, t: Table) {
    TallyOf(s.threads, t).Balances(s.sync[t])
  }

  ghost predicate Inv<J>(s: State<J>) {
    && (forall i :: 0 <= i < |s.threads| ==> s.threads[i].Valid())
    && (forall t: Table :: TableInv(s, t))
  }

  lemma WaitRoles<J>(th: Thread<J>, t: Table)
    requires th.Valid() && th.todo != [] && th.todo[0].Write? && th.pos < |th.todo[0].waits|
    ensures var op := th.todo[0].OpAt(th.pos); var nx := th.Next();
      && Plays(nx, Writes, t) == (op == WrtWait(t) || (Plays(th, Writes, t) && op != WrtPost(t)))
      && (op == WrtWait(t) ==> !Plays(th, Writes, t))
      && (op == WrtPost(t) ==> Plays(th, Writes, t))
      && !op.Load? && (op.Work? || op.WrtWait? || op.WrtPost?)
  {
    var Write(w, n, p, _) := th.todo[0];
    assert w[0] in p;
    assert Plays(th, Writes, t) <==> exists k :: 0 <= k < th.pos && w[k] == t;
  }

  lemma WorkRoles<J>(th: Thread<J>, t: Table)
    requires th.Valid() && th.todo != [] && th.todo[0].Write?
    requires |th.todo[0].waits| <= th.pos < |th.todo[0].waits| + th.todo[0].work
    ensures var op := th.todo[0].OpAt(th.pos); var nx := th.Next();
      && Plays(nx, Writes, t) == (op == WrtWait(t) || (Plays(th, Writes, t) && op != WrtPost(t)))
      && (op == WrtWait(t) ==> !Plays(th, Writes, t))
      && (op == WrtPost(t) ==> Plays(th, Writes, t))
      && !op.Load? && (op.Work? || op.WrtWait? || op.WrtPost?)
  {
    var Write(w, n, p, _) := th.todo[0];
    assert w[0] in p;
    assert Plays(th, Writes, t) <==> t in w;
  }

  lemma PostRoles<J>(th: Thread<J>, t: Table)
    requires th.Valid() && th.todo != [] && th.todo[0].Write?
    requires |th.todo[0].waits| + th.todo[0].work <= th.pos
    ensures var op := th.todo[0].OpAt(th.pos); var nx := th.Next();
      && Plays(nx, Writes, t) == (op == WrtWait(t) || (Plays(th, Writes, t) && op != WrtPost(t)))
      && (op == WrtWait(t) ==> !Plays(th, Writes, t))
      && (op == WrtPost(t) ==> Plays(th, Writes, t))
      && !op.Load? && (op.Work? || op.WrtWait? || op.WrtPost?)
  {
    var Write(w, n, p, _) := th.todo[0];
    var d := th.pos - |w| - n;
    assert p[d] in w;
    assert Plays(th, Writes, t) <==> t in p && !exists k :: 0 <= k < d && p[k] == t;
  }

  lemma WriterRoles<J>(th: Thread<J>, t: Table)
    requires th.Valid() && th.todo != [] && th.todo[0].Write?
    ensures var op := th.todo[0].OpAt(th.pos); var nx := th.Next();
      && Plays(nx, Writes, t) == (op == WrtWait(t) || (Plays(th, Writes, t) && op != WrtPost(t)))
      && (op == WrtWait(t) ==> !Plays(th, Writes, t))
      && (op == WrtPost(t) ==> Plays(th, Writes, t))
      && !op.Load? && (op.Work? || op.WrtWait? || op.WrtPost?)
  {
    var sec := th.todo[0];
    if th.pos < |sec.waits| { WaitRoles(th, t); }
    else if th.pos < |sec.waits| + sec.work { WorkRoles(th, t); }
    else { PostRoles(th, t); }
  }

  lemma NextRoles<J>(th: Thread<J>, t: Table)
    requires th.Valid() && th.todo != []
    ensures th.Next().Valid() && (th.Next().pos > 0 ==> th.Next().todo == th.todo)
    ensures th.todo[0].OpAt(th.pos).Work? || th.todo[0].OpAt(th.pos).t != t
            ==> forall r :: Plays(th.Next(), r, t) == Plays(th, r, t)
  {
    if th.todo[0].Write? { WriterRoles(th, t); }
  }

  lemma TallyUpdate<J>(ths: seq<Thread<J>>, i: nat, x: Thread<J>, t: Table)
    requires i < |ths|
    ensures TallyOf(ths[i := x], t) == TallyOf(ths, t).Less(Share(ths[i], t)).Plus(Share(x, t))
  {
    forall r { CountUpdate(ths, i, x, r, t); }
  }

  lemma StepTally<J>(s: State<J>, i: nat, t: Table)
    requires CanStep(s, i)
    ensures TallyOf(Step(s, i).threads, t) == TallyOf(s.threads, t).Less(Share(s.threads[i], t)).Plus(Share(s.threads[i].Next(), t))
  {
    TallyUpdate(s.threads, i, s.threads[i].Next(), t);
  }

  lemma StepSync<J>(s: State<J>, i: nat, t: Table)
    requires CanStep(s, i)
    ensures var op := CurrentOp(s, i);
      if op.Work? || op.t != t then Step(s, i).sync[t] == s.sync[t]
      else OpEnabled(s.sync[t], op) && Step(s, i).sync[t] == ExecOne(s.sync[t], op)
  {
  }

  /** While thread `i` holds the mutex, the others count the same as they are in the group, and none
      of them is in the middle of a second exit. */
  lemma OthersInGroup<J>(s: State<J>, i: nat, t: Table)
    requires Inv(s) && i < |s.threads| && Plays(s.threads[i], HoldsMutex, t)
    ensures var y, x := TallyOf(s.threads, t), Share(s.threads[i], t);
      y.holding == 1 && y.counted - x.counted == y.inGroup - x.inGroup && y.second == x.second
  {
    assert TableInv(s, t);
    var others := s.threads[i := Thread([], 0)];
    forall r { CountUpdate(s.threads, i, Thread([], 0), r, t); }
    forall j | 0 <= j < |others| ensures !Plays(others[j], HoldsMutex, t) {
      if j != i && Plays(others[j], HoldsMutex, t) { Unique(s.threads, i, j, HoldsMutex, t); }
    }
    SameCount(others, Counted, InGroup, t);
    if Count(others, SecondExit, t) > 0 { var j := CountWitness(others, SecondExit, t); }
  }

  lemma ShareIsCounted<J>(s: State<J>, i: nat, t: Table)
    requires i < |s.threads|
    ensures var y, x := TallyOf(s.threads, t), Share(s.threads[i], t);
      y.holding >= x.holding && y.counted >= x.counted && y.inGroup >= x.inGroup && y.second >= x.second && y.writing >= x.writing
  {
    forall r | Plays(s.threads[i], r, t) { CountMembers(s.threads, i, i, r, t); }
  }

  /** One operation of a reader section at `pos`, on the table's semaphores, counter and tally. */
  lemma ReaderMoves(y: Sync, n: Tally, t: Table, pos: nat)
    requires n.Balances(y) && pos < 13 && OpEnabled(y, ReaderOp(t, pos))
    requires n.holding >= ReaderShare(pos).holding && n.counted >= ReaderShare(pos).counted && n.inGroup >= ReaderShare(pos).inGroup
    requires ReaderPlays(pos, HoldsMutex) ==>
      && n.holding == 1 && n.second == ReaderShare(pos).second
      && n.counted - ReaderShare(pos).counted == n.inGroup - ReaderShare(pos).inGroup
    ensures var z, m := ExecOne(y, ReaderOp(t, pos)), n.Less(ReaderShare(pos)).Plus(ReaderShare(pos + 1));
      m.Balances(z) && m.Lost(z) == n.Lost(y) + ReaderShare(pos).second
  {
  }

  lemma ReaderRoles<J>(th: Thread<J>, t: Table)
    requires th.Valid() && th.todo != [] && !th.todo[0].Write? && th.todo[0].t == t
    ensures th.pos < 13 && th.todo[0].OpAt(th.pos) == ReaderOp(t, th.pos)
    ensures Share(th, t) == ReaderShare(th.pos) && Share(th.Next(), t) == ReaderShare(th.pos + 1)
  {
  }

  lemma ReaderStepTable<J>(s: State<J>, i: nat, t: Table)
    requires Inv(s) && CanStep(s, i) && !s.threads[i].todo[0].Write? && s.threads[i].todo[0].t == t
    ensures TableInv(Step(s, i), t)
    ensures Lost(Step(s, i), t) == Lost(s, t) + Share(s.threads[i], t).second
  {
    assert TableInv(s, t);
    ReaderRoles(s.threads[i], t);
    StepTally(s, i, t);
    StepSync(s, i, t);
    ShareIsCounted(s, i, t);
    if ReaderPlays(s.threads[i].pos, HoldsMutex) { OthersInGroup(s, i, t); }
    ReaderMoves(s.sync[t], TallyOf(s.threads, t), t, s.threads[i].pos);
  }

  lemma WriterStepTable<J>(s: State<J>, i: nat, t: Table)
    requires Inv(s) && CanStep(s, i) && s.threads[i].todo[0].Write?
    ensures TableInv(Step(s, i), t) && Lost(Step(s, i), t) == Lost(s, t)
  {
    assert TableInv(s, t);
    StepTally(s, i, t);
    StepSync(s, i, t);
    ShareIsCounted(s, i, t);
    WriterRoles(s.threads[i], t);
  }

  lemma OtherStepTable<J>(s: State<J>, i: nat, t: Table)
    requires Inv(s) && CanStep(s, i) && !s.threads[i].todo[0].Write? && s.threads[i].todo[0].t != t
    ensures TableInv(Step(s, i), t) && Lost(Step(s, i), t) == Lost(s, t)
  {
    assert TableInv(s, t);
    StepTally(s, i, t);
    StepSync(s, i, t);
    NextRoles(s.threads[i], t);
  }

  lemma StepTable<J>(s: State<J>, i: nat, t: Table)
    requires Inv(s) && CanStep(s, i)
    ensures TableInv(Step(s, i), t)
    ensures Lost(Step(s, i), t) == Lost(s, t) + Share(s.threads[i], t).second
  {
    if s.threads[i].todo[0].Write? {
      WriterStepTable(s, i, t);
    } else if s.threads[i].todo[0].t == t {
      ReaderStepTable(s, i, t);
    } else {
      OtherStepTable(s, i, t);
    }
  }

  lemma StepKeepsInv<J>(s: State<J>, i: nat)
    requires Inv(s) && CanStep(s, i)
    ensures Inv(Step(s, i))
  {
    NextRoles(s.threads[i], CustomerInfo);
    forall t: Table { StepTable(s, i, t); }
  }

  lemma StartInv<J>(progs: seq<seq<Section<J>>>)
    requires WellFormedPrograms(progs)
    ensures Inv(Start(progs)) && forall t: Table :: Lost(Start(progs), t) == 0
  {
    forall r, t: Table ensures Count(Start(progs).threads, r, t) == 0 {
      if Count(Start(progs).threads, r, t) > 0 {
        var i := CountWitness(Start(progs).threads, r, t);
      }
    }
  }

  ghost predicate WellFormedPrograms<J>(progs: seq<seq<Section<J>>>) {
    forall i, k :: 0 <= i < |progs| && 0 <= k < |progs[i]| ==> progs[i][k].WellFormed()
  }

  lemma {:induction false} RunKeepsInv<J>(s: State<J>, sched: seq<nat>)
    requires Inv(s) && Schedulable(s, sched)
    ensures Inv(After(s, sched))
    decreases |sched|
  {
    if sched != [] {
      StepKeepsInv(s, sched[0]);
      RunKeepsInv(Step(s, sched[0]), sched[1..]);
    }
  }

  // ---------------------------------------------------------------------------------------
  // Missed lookups: each costs the counter exactly one.

  /** Missed lookups of the table in a program, from the operation at `pos` of its first section on:
      they are behind once the test after the second decrement is. */
  function Owed<J>(todo: seq<Section<J>>, pos: nat, t: Table): nat {
    if todo == [] then 0 else (if todo[0] == ReadMiss(t) && pos <= 11 then 1 else 0) + Owed(todo[1..], 0, t)
  }

  function Owing<J>(ths: seq<Thread<J>>, t: Table): nat {
    if ths == [] then 0 else Owed(ths[0].todo, ths[0].pos, t) + Owing(ths[1..], t)
  }

  lemma {:induction false} OwingUpdate<J>(ths: seq<Thread<J>>, i: nat, x: Thread<J>, t: Table)
    requires i < |ths|
    ensures Owing(ths[i := x], t) == Owing(ths, t) - Owed(ths[i].todo, ths[i].pos, t) + Owed(x.todo, x.pos, t)
  {
    if i > 0 {
      OwingUpdate(ths[1..], i - 1, x, t);
      assert ths[i := x][1..] == ths[1..][i - 1 := x];
    } else {
      assert ths[i := x][1..] == ths[1..];
    }
  }

  lemma StepKeepsDebt<J>(s: State<J>, i: nat, t: Table)
    requires Inv(s) && CanStep(s, i)
    ensures Lost(Step(s, i), t) + Owing(Step(s, i).threads, t) == Lost(s, t) + Owing(s.threads, t)
  {
    StepTable(s, i, t);
    OwingUpdate(s.threads, i, s.threads[i].Next(), t);
  }

  /** Second exits completed and missed lookups still ahead add up to the same along every run. */
  lemma {:induction false} RunKeepsDebt<J>(s: State<J>, sched: seq<nat>, t: Table)
    requires Inv(s) && Schedulable(s, sched)
    ensures Lost(After(s, sched), t) + Owing(After(s, sched).threads, t) == Lost(s, t) + Owing(s.threads, t)
    decreases |sched|
  {
    if sched != [] {
      StepKeepsInv(s, sched[0]);
      StepKeepsDebt(s, sched[0], t);
      RunKeepsDebt(Step(s, sched[0]), sched[1..], t);
    }
  }

  /** The missed lookups of one table in all programs. */
  function Misses<J>(progs: seq<seq<Section<J>>>, t: Table): nat {
    Owing(Start(progs).threads, t)
  }

  ghost predicate NoMiss<J>(progs: seq<seq<Section<J>>>, t: Table) {
    forall i, k :: 0 <= i < |progs| && 0 <= k < |progs[i]| ==> progs[i][k] != ReadMiss(t)
  }

  lemma {:induction false} NothingOwed<J>(todo: seq<Section<J>>, t: Table)
    requires forall k :: 0 <= k < |todo| ==> todo[k] != ReadMiss(t)
    ensures Owed(todo, 0, t) == 0
  {
    if todo != [] { NothingOwed(todo[1..], t); }
  }

  lemma {:induction false} NothingOwing<J>(ths: seq<Thread<J>>, t: Table)
    requires forall i :: 0 <= i < |ths| ==> Owed(ths[i].todo, ths[i].pos, t) == 0
    ensures Owing(ths, t) == 0
  {
    if ths != [] { NothingOwing(ths[1..], t); }
  }

  lemma NoMissNoDebt<J>(progs: seq<seq<Section<J>>>, t: Table)
    requires NoMiss(progs, t)
    ensures Misses(progs, t) == 0
  {
    forall i | 0 <= i < |progs| ensures Owed(progs[i], 0, t) == 0 { NothingOwed(progs[i], t); }
    NothingOwing(Start(progs).threads, t);
  }

  ghost predicate Reached<J>(progs: seq<seq<Section<J>>>, s: State<J>) {
    exists sched :: Schedulable(Start(progs), sched) && After(Start(progs), sched) == s
  }

  lemma ReachedBy<J>(progs: seq<seq<Section<J>>>, sched: seq<nat>)
    requires Schedulable(Start(progs), sched)
    ensures Reached(progs, After(Start(progs), sched))
  {
  }

  /** In every reachable state: the second exits completed are the missed lookups no longer ahead. */
  lemma {:induction false} LostSoFar<J>(progs: seq<seq<Section<J>>>, s: State<J>, t: Table)
    requires WellFormedPrograms(progs) && Reached(progs, s)
    ensures Inv(s) && Lost(s, t) == Misses(progs, t) - Owing(s.threads, t) >= 0
  {
    var sched :| Schedulable(Start(progs), sched) && After(Start(progs), sched) == s;
    StartInv(progs);
    RunKeepsInv(Start(progs), sched);
    RunKeepsDebt(Start(progs), sched, t);
    assert TableInv(s, t);
  }

  // ---------------------------------------------------------------------------------------
  // Exclusion.

  ghost predicate Somebody<J>(s: State<J>, r: Role, t: Table) {
    exists i :: 0 <= i < |s.threads| && Plays(s.threads[i], r, t)
  }

  /** Holds with and without missed lookups. */
  ghost predicate WritersExclude<J>(s: State<J>, t: Table) {
    && (forall i, j :: 0 <= i < |s.threads| && 0 <= j < |s.threads| && Plays(s.threads[i], Writes, t) && Plays(s.threads[j], Writes, t)
          ==> i == j)
    && 0 <= s.sync[t].wrt <= 1 && 0 <= s.sync[t].mutex <= 1
    && (Somebody(s, Writes, t) ==> s.sync[t].wrt == 0)
    && (s.sync[t].mutex == 0 <==> Somebody(s, HoldsMutex, t))
  }

  ghost predicate Exclusion<J>(s: State<J>, t: Table) {
    && WritersExclude(s, t)
    && !Overlap(s, t)
    && s.sync[t].readers == Count(s.threads, Counted, t)
    && (s.sync[t].wrt == 0 <==> Somebody(s, Writes, t) || Somebody(s, InGroup, t))
  }

  /** A writer owns the table while a reader is inside. */
  ghost predicate Overlap<J>(s: State<J>, t: Table) {
    Somebody(s, Writes, t) && Somebody(s, InGroup, t)
  }

  lemma Counts<J>(s: State<J>, t: Table)
    ensures forall r :: Count(s.threads, r, t) > 0 <==> Somebody(s, r, t)
  {
    forall r ensures Count(s.threads, r, t) > 0 <==> Somebody(s, r, t) {
      if Count(s.threads, r, t) > 0 {
        var i := CountWitness(s.threads, r, t);
      } else if i :| 0 <= i < |s.threads| && Plays(s.threads[i], r, t) {
        CountMembers(s.threads, i, i, r, t);
      }
    }
  }

  lemma InvExcludesWriters<J>(s: State<J>, t: Table)
    requires Inv(s)
    ensures WritersExclude(s, t)
  {
    var ths := s.threads;
    assert TableInv(s, t);
    Counts(s, t);
    forall i, j | 0 <= i < |ths| && 0 <= j < |ths| && Plays(ths[i], Writes, t) && Plays(ths[j], Writes, t)
      ensures i == j
    {
      Unique(ths, i, j, Writes, t);
    }
  }

  /** Before the first second exit on a table its readers and writers exclude each other. */
  lemma ExcludedUntilLost<J>(s: State<J>, t: Table)
    requires Inv(s) && Lost(s, t) == 0
    ensures !Overlap(s, t)
  {
    assert TableInv(s, t);
    Counts(s, t);
  }

  lemma {:induction false} OwingMember<J>(ths: seq<Thread<J>>, i: nat, t: Table)
    requires i < |ths|
    ensures Owing(ths, t) >= Owed(ths[i].todo, ths[i].pos, t)
  {
    if i > 0 { OwingMember(ths[1..], i - 1, t); }
  }

  lemma InvExcludes<J>(s: State<J>, t: Table)
    requires Inv(s) && Lost(s, t) == 0 && Owing(s.threads, t) == 0
    ensures Exclusion(s, t)
  {
    InvExcludesWriters(s, t);
    ExcludedUntilLost(s, t);
    assert TableInv(s, t);
    Counts(s, t);
    if i :| 0 <= i < |s.threads| && Plays(s.threads[i], SecondExit, t) { OwingMember(s.threads, i, t); }
  }

  /** Whatever the programs, missed lookups included: at most one writer, and both semaphores binary. */
  lemma {:induction false} WriterExclusion<J>(progs: seq<seq<Section<J>>>, s: State<J>, t: Table)
    requires WellFormedPrograms(progs) && Reached(progs, s)
    ensures WritersExclude(s, t)
  {
    LostSoFar(progs, s, t);
    InvExcludesWriters(s, t);
  }

  /** Reader/writer exclusion on every reachable state of any number of threads: at most one
      writer, never a writer together with a reader of the group (so never while a reader loads),
      the counter is the number of threads between the two critical sections, and each semaphore
      is 0 exactly when somebody owns it. */
  lemma {:induction false} ReaderWriterExclusion<J>(progs: seq<seq<Section<J>>>, s: State<J>, t: Table)
    requires WellFormedPrograms(progs) && NoMiss(progs, t) && Reached(progs, s)
    ensures Exclusion(s, t)
  {
    LostSoFar(progs, s, t);
    NoMissNoDebt(progs, t);
    InvExcludes(s, t);
  }
}
