/** The commands of the demonstration server with their lock sequences, the published resource
    order, and the contrast with the branch that takes the order locks backwards. */
module DsModel {
  import opened Locks
  import opened Progress

  datatype Info = Name | Number | Address

  /** `valid` and `valid2` are the flags of the source's `struct command`. */
  datatype Command =
    | NewClient(buyer: bool)
    | ValidateId(t: Table)
    | ViewProducts
    | CompleteOrder(valid: bool)
    | ViewBuyerOrders
    | CheckBuyer
    | OrderDetails
    | ModOrder
    | ViewBilling
    | EditInfo(buyer: bool, what: Info)
    | NewProduct
    | DeleteProd(valid: bool, valid2: bool)
    | ModQuant(valid: bool, valid2: bool)
    | ModPrice(valid: bool, valid2: bool)
    | SellerOrders

  function Writer(ts: seq<Table>, work: nat, c: Command): seq<Section<Command>> {
    [Write(ts, work, ts, c)]
  }

  function Sections(c: Command): seq<Section<Command>> {
    match c
    case NewClient(buyer) => Writer([if buyer then CustomerInfo else SellerInfo], 2, c)
    case ValidateId(t) => [Read(t)]
    case ViewProducts => [Read(ProductInfo)]
    case CompleteOrder(valid) => if valid then Writer([ProductInfo, BillingInfo, CustomerOrder], 6, c) else []
    case ViewBuyerOrders => [Read(BillingInfo)]
    case CheckBuyer => [Read(BillingInfo)]
    case OrderDetails => [Read(CustomerOrder), Read(ProductInfo)]
    case ModOrder => Writer([BillingInfo, CustomerOrder], 4, c)
    case ViewBilling => [Read(CustomerInfo)]
    case EditInfo(buyer, what) =>
      if !buyer then Writer([SellerInfo], 2, c)
      else if what == Number then Writer([CustomerInfo], 2, c)
      else Writer([CustomerInfo, BillingInfo, CustomerOrder], 6, c)
    case NewProduct => Writer([ProductInfo], 2, c)
    case DeleteProd(valid, valid2) => if valid then Writer([ProductInfo], if valid2 then 2 else 1, c) else []
    case ModQuant(valid, valid2) => if valid then Writer([ProductInfo], if valid2 then 2 else 1, c) else []
    case ModPrice(valid, valid2) => if valid then Writer([ProductInfo], if valid2 then 2 else 1, c) else []
    case SellerOrders => [Read(ProductInfo), Read(CustomerOrder)]
  }

  // The published table of file accesses, per command, apart from the [VALIDATE_ID] call that sets
  // `valid`.

  function Reads(c: Command): set<Table> {
    match c
    case NewClient(buyer) => {if buyer then CustomerInfo else SellerInfo}
    case ValidateId(t) => {t}
    case ViewProducts => {ProductInfo}
    case CompleteOrder(valid) => if valid then {ProductInfo, CustomerInfo, BillingInfo, CustomerOrder} else {}
    case ViewBuyerOrders => {BillingInfo}
    case CheckBuyer => {BillingInfo}
    case OrderDetails => {CustomerOrder, ProductInfo}
    case ModOrder => {CustomerOrder, BillingInfo}
    case ViewBilling => {CustomerInfo}
    case EditInfo(buyer, what) =>
      if !buyer then {SellerInfo} else if what == Number then {CustomerInfo} else {CustomerInfo, BillingInfo, CustomerOrder}
    case NewProduct => {ProductInfo}
    case DeleteProd(valid, _) => if valid then {ProductInfo} else {}
    case ModQuant(valid, _) => if valid then {ProductInfo} else {}
    case ModPrice(valid, _) => if valid then {ProductInfo} else {}
    case SellerOrders => {ProductInfo, CustomerOrder}
  }

  function Stores(c: Command): set<Table> {
    match c
    case NewClient(buyer) => {if buyer then CustomerInfo else SellerInfo}
    case CompleteOrder(valid) => if valid then {ProductInfo, BillingInfo, CustomerOrder} else {}
    case ModOrder => {CustomerOrder, BillingInfo}
    case EditInfo(buyer, what) =>
      if !buyer then {SellerInfo} else if what == Number then {CustomerInfo} else {CustomerInfo, BillingInfo, CustomerOrder}
    case NewProduct => {ProductInfo}
    case DeleteProd(valid, valid2) => if valid && valid2 then {ProductInfo} else {}
    case ModQuant(valid, valid2) => if valid && valid2 then {ProductInfo} else {}
    case ModPrice(valid, valid2) => if valid && valid2 then {ProductInfo} else {}
    case _ => {}
  }

  function Locked(secs: seq<Section<Command>>): set<Table> {
    if secs == [] then {}
    else (if secs[0].Write? then set t | t in secs[0].waits else {secs[0].t}) + Locked(secs[1..])
  }

  function WriteLocked(secs: seq<Section<Command>>): set<Table> {
    if secs == [] then {}
    else (if secs[0].Write? then set t | t in secs[0].waits else {}) + WriteLocked(secs[1..])
  }

  /** Every table a command stores is write-locked, and a command locks exactly the tables it reads,
      with one exception: a completed order reads the buyers without a lock. */
  lemma LocksCoverAccesses(c: Command)
    ensures Stores(c) <= WriteLocked(Sections(c))
    ensures Locked(Sections(c)) == Reads(c) - if c.CompleteOrder? then {CustomerInfo} else {}
  {
    var secs := Sections(c);
    if |secs| > 0 {
      assert Locked(secs[1..]) == if |secs| > 1 then {secs[1].t} else {};
    }
  }

  function Program(cs: seq<Command>): seq<Section<Command>> {
    if cs == [] then [] else Sections(cs[0]) + Program(cs[1..])
  }

  function Programs(clients: seq<seq<Command>>): seq<seq<Section<Command>>> {
    seq(|clients|, i requires 0 <= i < |clients| => Program(clients[i]))
  }

  /** The published order: CustomerInfo 1, SellerInfo 2, ProductInfo 3, BillingInfo 4, CustomerOrder 5. */
  function ResourceOrder(t: Table): nat {
    match t
    case CustomerInfo => 1
    case SellerInfo => 2
    case ProductInfo => 3
    case BillingInfo => 4
    case CustomerOrder => 5
  }

  lemma WriterFollowsTheOrder(ts: seq<Table>, work: nat, c: Command)
    requires ts != [] && forall i, j :: 0 <= i < j < |ts| ==> ResourceOrder(ts[i]) < ResourceOrder(ts[j])
    ensures Writer(ts, work, c)[0].WellFormed() && Writer(ts, work, c)[0].Ranked(ResourceOrder)
  {
  }

  lemma SectionsFollowTheOrder(c: Command)
    ensures forall k :: 0 <= k < |Sections(c)| ==>
      Sections(c)[k].WellFormed() && Sections(c)[k].Ranked(ResourceOrder) && !Sections(c)[k].ReadMiss?
  {
    if Sections(c) != [] && Sections(c)[0].Write? {
      WriterFollowsTheOrder(Sections(c)[0].waits, Sections(c)[0].work, c);
    }
  }

  lemma {:induction false} CommandsFollowTheOrder(cs: seq<Command>)
    ensures forall k :: 0 <= k < |Program(cs)| ==>
      Program(cs)[k].WellFormed() && Program(cs)[k].Ranked(ResourceOrder) && !Program(cs)[k].ReadMiss?
  {
    if cs != [] {
      CommandsFollowTheOrder(cs[1..]);
      SectionsFollowTheOrder(cs[0]);
    }
  }

  /** Whatever commands any number of clients send, the server never gets stuck, each run is
      bounded, and a run that cannot go on has finished every command with all locks free. */
  lemma {:induction false} ServerAlwaysCompletes(clients: seq<seq<Command>>, sched: seq<nat>)
    requires Schedulable(Start(Programs(clients)), sched)
    ensures |sched| <= TotalOps(Programs(clients))
    ensures var s := After(Start(Programs(clients)), sched);
      && ((forall i :: !CanStep(s, i)) <==> Finished(s))
      && (Finished(s) ==> s.sync == AllFree() && |sched| == TotalOps(Programs(clients)))
      && forall t: Table :: Exclusion(s, t)
  {
    var progs := Programs(clients);
    forall i | 0 <= i < |progs| { CommandsFollowTheOrder(clients[i]); }
    Completion(progs, ResourceOrder, sched);
    assert forall t: Table :: NoMiss(progs, t);
    if Finished(After(Start(progs), sched)) { FreeWithoutMisses(progs, After(Start(progs), sched)); }
    ReachedBy(progs, sched);
    forall t: Table { ReaderWriterExclusion(progs, After(Start(progs), sched), t); }
  }

  // ---------------------------------------------------------------------------------------
  // The contrast.

  ghost predicate Stuck<J>(s: State<J>) {
    !Finished(s) && forall i: nat :: !CanStep(s, i)
  }

  ghost predicate CanDeadlock<J>(progs: seq<seq<Section<J>>>) {
    exists sched :: Schedulable(Start(progs), sched) && Stuck(After(Start(progs), sched))
  }

  /** The table is among the first `n` of the list. */
  ghost predicate AmongFirst(w: seq<Table>, n: nat, t: Table) {
    exists k :: 0 <= k < n && k < |w| && w[k] == t
  }

  /** The two lock lists cross: each waits for a table the other already owns, and what they own
      so far is disjoint. */
  ghost predicate Crossing(a: seq<Table>, b: seq<Table>, j: nat, k: nat) {
    && j < |a| && k < |b|
    && AmongFirst(b, k, a[j]) && AmongFirst(a, j, b[k])
    && forall t :: !(AmongFirst(a, j, t) && AmongFirst(b, k, t))
  }

  /** Two threads that each run one section, in whatever state they have reached. */
  ghost predicate OneEach<J>(s: State<J>, a: Section<J>, b: Section<J>) {
    && |s.threads| == 2
    && (s.threads[0].todo == [] || s.threads[0].todo == [a])
    && (s.threads[1].todo == [] || s.threads[1].todo == [b])
  }

  lemma {:induction false} OneEachRuns<J>(s: State<J>, a: Section<J>, b: Section<J>, sched: seq<nat>)
    requires OneEach(s, a, b) && Schedulable(s, sched)
    ensures OneEach(After(s, sched), a, b)
    decreases |sched|
  {
    if sched != [] { OneEachRuns(Step(s, sched[0]), a, b, sched[1..]); }
  }

  lemma WaitingHolds<J>(th: Thread<J>, t: Table)
    requires th.Valid() && th.todo != [] && th.todo[0].Write? && th.pos <= |th.todo[0].waits|
    ensures Plays(th, Writes, t) <==> AmongFirst(th.todo[0].waits, th.pos, t)
  {
  }

  lemma OwnerIsWaitingToo<J>(s: State<J>, i: nat) returns (o: nat)
    requires Inv(s) && i < |s.threads| && s.threads[i].todo != [] && !CanStep(s, i)
    requires forall j :: 0 <= j < |s.threads| && s.threads[j].todo != [] ==> s.threads[j].todo[0].Write?
    ensures s.threads[i].pos < |s.threads[i].todo[0].waits|
    ensures o < |s.threads| && o != i && s.threads[o].todo != []
    ensures Plays(s.threads[o], Writes, s.threads[i].todo[0].waits[s.threads[i].pos])
  {
    var t := CurrentOp(s, i).t;
    assert TableInv(s, t);
    WriterRoles(s.threads[i], t);
    if Count(s.threads, InGroup, t) > 0 { var g := CountWitness(s.threads, InGroup, t); }
    o := CountWitness(s.threads, Writes, t);
  }

  lemma TakeOne<J>(s: State<J>, i: nat, sec: Section<J>, pos: nat)
    requires i < |s.threads| && s.threads[i] == Thread([sec], pos) && sec.Write? && sec.posts != []
    requires pos < |sec.waits| && s.sync[sec.waits[pos]].wrt == 1
    ensures CanStep(s, i) && Step(s, i).threads == s.threads[i := Thread([sec], pos + 1)]
    ensures forall t: Table :: Step(s, i).sync[t].wrt == if t == sec.waits[pos] then 0 else s.sync[t].wrt
  {
  }

  /** A writer takes its first `n` tables while they are free. */
  lemma {:induction false} TakeTables<J>(s: State<J>, i: nat, sec: Section<J>, n: nat) returns (sched: seq<nat>)
    requires i < |s.threads| && s.threads[i] == Thread([sec], 0) && sec.Write? && sec.posts != [] && n <= |sec.waits|
    requires forall j, k :: 0 <= j < k < |sec.waits| ==> sec.waits[j] != sec.waits[k]
    requires forall k :: 0 <= k < n ==> s.sync[sec.waits[k]].wrt == 1
    ensures Schedulable(s, sched) && After(s, sched).threads == s.threads[i := Thread([sec], n)]
    ensures forall t: Table :: After(s, sched).sync[t].wrt == if AmongFirst(sec.waits, n, t) then 0 else s.sync[t].wrt
    decreases n
  {
    sched := [];
    if n > 0 {
      sched := TakeTables(s, i, sec, n - 1);
      TakeOne(After(s, sched), i, sec, n - 1);
      Extend(s, sched, i);
      sched := sched + [i];
    }
  }

  lemma PairStart<J>(a: Section<J>, b: Section<J>)
    requires a.WellFormed() && b.WellFormed() && a.Write? && b.Write?
    ensures Start([[a], [b]]) == State(AllFree(), [Thread([a], 0), Thread([b], 0)])
    ensures Inv(Start([[a], [b]]))
  {
    assert WellFormedPrograms([[a], [b]]);
    StartInv([[a], [b]]);
  }

  lemma StuckPairCrosses<J>(s: State<J>, a: Section<J>, b: Section<J>)
    requires Inv(s) && OneEach(s, a, b) && a.Write? && b.Write?
    requires Stuck(s)
    ensures exists j: nat, k: nat :: Crossing(a.waits, b.waits, j, k)
  {
    var o := OwnerIsWaitingToo(s, if s.threads[0].todo != [] then 0 else 1);
    var p := OwnerIsWaitingToo(s, o);
    var q := OwnerIsWaitingToo(s, p);
    var j, k := s.threads[0].pos, s.threads[1].pos;
    forall t ensures (AmongFirst(a.waits, j, t) <==> Plays(s.threads[0], Writes, t))
                  && (AmongFirst(b.waits, k, t) <==> Plays(s.threads[1], Writes, t))
                  && !(AmongFirst(a.waits, j, t) && AmongFirst(b.waits, k, t))
    {
      WaitingHolds(s.threads[0], t);
      WaitingHolds(s.threads[1], t);
      InvExcludesWriters(s, t);
    }
    assert Crossing(a.waits, b.waits, j, k);
  }

  /** After taking `j` and `k` tables of crossing lists neither thread can move. */
  lemma CrossedStateIsStuck<J>(s: State<J>, a: Section<J>, b: Section<J>, j: nat, k: nat)
    requires a.Write? && b.Write? && Crossing(a.waits, b.waits, j, k)
    requires s.threads == [Thread([a], j), Thread([b], k)]
    requires s.sync[a.waits[j]].wrt == 0 && s.sync[b.waits[k]].wrt == 0
    ensures Stuck(s)
  {
    assert s.threads[0].todo != [];
    assert !CanStep(s, 0) && !CanStep(s, 1);
  }

  lemma TakeSecond<J>(s: State<J>, a: Section<J>, b: Section<J>, j: nat, k: nat) returns (sched: seq<nat>)
    requires b.WellFormed() && a.Write? && b.Write? && j <= |a.waits| && k <= |b.waits|
    requires s.threads == [Thread([a], j), Thread([b], 0)]
    requires forall t :: !(AmongFirst(a.waits, j, t) && AmongFirst(b.waits, k, t))
    requires forall t: Table :: s.sync[t].wrt == if AmongFirst(a.waits, j, t) then 0 else 1
    ensures Schedulable(s, sched)
    ensures After(s, sched).threads == [Thread([a], j), Thread([b], k)]
    ensures forall t :: AmongFirst(a.waits, j, t) || AmongFirst(b.waits, k, t) ==> After(s, sched).sync[t].wrt == 0
  {
    assert b.waits[0] in b.posts;
    forall x | 0 <= x < k ensures s.sync[b.waits[x]].wrt == 1 {
      assert AmongFirst(b.waits, k, b.waits[x]);
    }
    sched := TakeTables(s, 1, b, k);
  }

  /** One writer takes its first `j` tables, then the other its first `k`, when these are disjoint. */
  lemma TakeBoth<J>(a: Section<J>, b: Section<J>, j: nat, k: nat) returns (sched: seq<nat>)
    requires a.WellFormed() && b.WellFormed() && a.Write? && b.Write? && j <= |a.waits| && k <= |b.waits|
    requires forall t :: !(AmongFirst(a.waits, j, t) && AmongFirst(b.waits, k, t))
    ensures Schedulable(Start([[a], [b]]), sched)
    ensures After(Start([[a], [b]]), sched).threads == [Thread([a], j), Thread([b], k)]
    ensures forall t :: AmongFirst(a.waits, j, t) || AmongFirst(b.waits, k, t) ==> After(Start([[a], [b]]), sched).sync[t].wrt == 0
  {
    var start := Start([[a], [b]]);
    assert start.threads == [Thread([a], 0), Thread([b], 0)];
    assert a.waits[0] in a.posts;
    var first := TakeTables(start, 0, a, j);
    var second := TakeSecond(After(start, first), a, b, j, k);
    AfterJoin(start, first, second);
    sched := first + second;
  }

  lemma CrossingGetsStuck<J>(a: Section<J>, b: Section<J>, j: nat, k: nat)
    requires a.WellFormed() && b.WellFormed() && a.Write? && b.Write?
    requires Crossing(a.waits, b.waits, j, k)
    ensures CanDeadlock([[a], [b]])
  {
    var sched := TakeBoth(a, b, j, k);
    CrossedStateIsStuck(After(Start([[a], [b]]), sched), a, b, j, k);
  }

  /** Two single-section writers can deadlock exactly when their lock lists cross. */
  lemma TwoWritersDeadlockIff<J>(a: Section<J>, b: Section<J>)
    requires a.WellFormed() && b.WellFormed() && a.Write? && b.Write?
    ensures CanDeadlock([[a], [b]]) <==> exists j: nat, k: nat :: Crossing(a.waits, b.waits, j, k)
  {
    var start := Start([[a], [b]]);
    if j: nat, k: nat :| Crossing(a.waits, b.waits, j, k) {
      CrossingGetsStuck(a, b, j, k);
    } else if CanDeadlock([[a], [b]]) {
      var sched :| Schedulable(start, sched) && Stuck(After(start, sched));
      PairStart(a, b);
      RunKeepsInv(start, sched);
      OneEachRuns(start, a, b, sched);
      StuckPairCrosses(After(start, sched), a, b);
    }
  }

  const FORWARD: Section<Command> :=
    Write([ProductInfo, BillingInfo, CustomerOrder], 6, [ProductInfo, BillingInfo, CustomerOrder], CompleteOrder(true))

  const REVERSED: Section<Command> :=
    Write([CustomerOrder, BillingInfo, ProductInfo], 6, [ProductInfo, BillingInfo, CustomerOrder], CompleteOrder(true))

  /** Mixing the two lock orders of the completed order admits no common rank and deadlocks. */
  lemma ReversedOrderDeadlocks()
    ensures forall rank: Table -> nat :: !(FORWARD.Ranked(rank) && REVERSED.Ranked(rank))
    ensures CanDeadlock([[FORWARD], [REVERSED]])
  {
    forall rank: Table -> nat ensures !(FORWARD.Ranked(rank) && REVERSED.Ranked(rank)) {
      assert FORWARD.waits[0] == REVERSED.waits[2] && FORWARD.waits[1] == REVERSED.waits[1];
    }
    var a, b := FORWARD.waits, REVERSED.waits;
    assert a[0] == ProductInfo && a[1] == b[1] == BillingInfo && a[2] == b[0] == CustomerOrder;
    assert Crossing(FORWARD.waits, REVERSED.waits, 2, 1);
    TwoWritersDeadlockIff(FORWARD, REVERSED);
  }
}
