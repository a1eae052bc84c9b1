/** Waiting in the open system: what a visit of the cabin guarantees, and that visits need not help. */
module Waiting {
  import opened Passengers
  import opened Cabin
  import opened Critical
  import opened Sweep
  import opened Bookkeeping
  import opened AtomicMachine
  import opened Runs
  import opened Display
  import opened Iteration
  import opened Drain
  import opened Undisturbed
  import opened Shutdown
  import opened SystemCalls

  // ---------- what a visit guarantees ----------

  ghost predicate Lined(q: seq<Passenger>, floor: int) {
    Ordered(q) && forall p :: p in q ==> p.start == floor && 0 <= p.kind <= 1
  }

  lemma LinedTail(q: seq<Passenger>, floor: int)
    requires q != [] && Lined(q, floor)
    ensures Lined(q[1..], floor) && q[0] !in q[1..]
  {
    assert forall i :: 0 <= i < |q| - 1 ==> q[1..][i] == q[i + 1];
  }

  ghost predicate Humans(q: seq<Passenger>, k: nat)
    requires k <= |q|
  {
    forall j :: 0 <= j < k ==> Human(q[j])
  }

  lemma HumansTail(q: seq<Passenger>, k: nat)
    requires 0 < k <= |q|
    ensures Humans(q, k) <==> Human(q[0]) && Humans(q[1..], k - 1)
  {
    assert forall j :: 0 < j < k ==> q[j] == q[1..][j - 1];
  }

  /** A human boards if and only if the cabin is clean, only humans are ahead, and there is room after them. */
  lemma {:induction false} HumanBoards(q: seq<Passenger>, floor: int, loads: int, status: int, k: nat)
    requires Lined(q, floor) && k < |q| && Human(q[k])
    ensures q[k] in Board(q, floor, loads, status).aboard
            <==> status == 0 && loads + k < 10 && Humans(q, k)
    decreases k
  {
    hide Ordered, Humans;
    LinedTail(q, floor);
    var admit := Admits(q[0], floor, loads, status);
    var loads', status' := if admit then loads + 1 else loads, if admit && Zombie(q[0]) then 1 else status;
    BoardSplits(q[1..], floor, loads', status');
    assert q[0] in q;
    if k == 0 {
      NoneAhead(q);
    } else {
      assert q[k] == q[1..][k - 1];
      HumansTail(q, k);
      HumanBoards(q[1..], floor, loads', status', k - 1);
    }
  }

  lemma NoneAhead(q: seq<Passenger>)
    ensures Humans(q, 0)
  {
  }

  /** A zombie boards if and only if there is room after all who may board before it. */
  lemma {:induction false} ZombieBoards(q: seq<Passenger>, floor: int, loads: int, status: int, k: nat)
    requires Lined(q, floor) && k < |q| && Zombie(q[k])
    ensures q[k] in Board(q, floor, loads, status).aboard
            <==> loads + |Eligible(q[..k], status)| < 10
  {
    hide Ordered;
    LinedTail(q, floor);
    var admit := Admits(q[0], floor, loads, status);
    var loads', status' := if admit then loads + 1 else loads, if admit && Zombie(q[0]) then 1 else status;
    var tail := q[1..];
    assert q[0] in q;
    BoardSplits(tail, floor, loads', status');
    if k > 0 {
      assert q[k] == tail[k - 1] && q[k] in tail && q[..k][0] == q[0] && q[..k][1..] == tail[..k - 1];
      ZombieBoards(tail, floor, loads', status', k - 1);
    }
  }

  /** Whenever the scheduler gets to load, in any run: the `k`-th in the queue boards exactly then. With
      a clean cabin and room, at least the first human in the queue, or a zombie ahead, does. */
  lemma VisitServes(n: nat, ls: seq<Label>, k: nat)
    requires var w := Exec(Init(n), ls); w.sched.pc == Boarding && k < |Queue(w.e)|
    ensures var w := Exec(Init(n), ls);
            var q, p := Queue(w.e), Queue(w.e)[k];
      p in SchedStep(w).e.onboard <==>
        if Human(p) then w.e.status == 0 && w.e.loads + k < 10 && forall j :: 0 <= j < k ==> Human(q[j])
        else w.e.loads + |Eligible(q[..k], w.e.status)| < 10
  {
    var w := Exec(Init(n), ls);
    Always(n, ls);
    QueueServed(w.e, k);
  }

  lemma QueueServed(e: Elevator, k: nat)
    requires Ledger(e) && k < |Queue(e)|
    ensures var q, p := Queue(e), Queue(e)[k];
      p in Load(e).onboard <==>
        if Human(p) then e.status == 0 && e.loads + k < 10 && forall j :: 0 <= j < k ==> Human(q[j])
        else e.loads + |Eligible(q[..k], e.status)| < 10
  {
    var q, f := Queue(e), e.floor - 1;
    forall p | p in q
      ensures p.start == e.floor && 0 <= p.kind <= 1 && p !in e.onboard
    {
      InQueue(e, f, p);
      Accounted(e, p);
      OncePlaced(e, p);
    }
    assert q[k] in q;
    LoadShape(e);
    if Human(q[k]) {
      HumanBoards(q, e.floor, e.loads, e.status, k);
    } else {
      ZombieBoards(q, e.floor, e.loads, e.status, k);
    }
  }

  lemma OncePlaced(e: Elevator, p: Passenger)
    requires Conserved(e) && p in Flat(e.waiting)
    ensures p !in e.onboard
  {
    Accounted(e, p);
    assert p in multiset(Flat(e.waiting));
    assert p in e.onboard ==> p in multiset(e.onboard);
  }

  // ---------- what an iteration leaves behind ----------

  /** The cabin is full, or infected and `p` is human. */
  predicate TurnedAway(e: Elevator, p: Passenger) {
    e.loads >= 10 || (e.status == 1 && Human(p))
  }

  /** `w` is in the iteration that began in `v`: whoever waited there still does until the scheduler has
      loaded, and then they have boarded, or are turned away. */
  ghost predicate Tended(v: World, w: World) {
    && w.e.floor == v.e.floor
    && (w.sched.pc == TestWaiting ==> w.e.numWaiting >= v.e.numWaiting)
    && (w.sched.pc == TestOnboard || w.sched.pc == Resting ==> v.e.numWaiting <= 0)
    && forall p :: p in Queue(v.e) ==>
         if BeforeBoarding(w.sched.pc) then p in Queue(w.e) else p in w.e.log.boarded || TurnedAway(w.e, p)
  }

  ghost predicate TendedSince(v: World, w: World) {
    v.e.log.rounds <= w.e.log.rounds && (v.e.log.rounds == w.e.log.rounds ==> Tended(v, w))
  }

  lemma BoardsOrTurnedAway(e: Elevator, p: Passenger)
    requires Ledger(e) && Quarantined(e) && p in Queue(e)
    ensures p in Load(e).log.boarded || TurnedAway(Load(e), p)
  {
    hide Load, Board, Flat;
    var q := Queue(e);
    LoadShape(e);
    LoadStatus(e);
    BoardMaximal(q, e.floor, e.loads, e.status);
    BoardSplits(q, e.floor, e.loads, e.status);
    InQueue(e, e.floor - 1, p);
    assert p in multiset(q);
  }

  lemma BoardingTends(v: World, w: World)
    requires Inv(w) && Tended(v, w) && w.sched.pc == Boarding
    ensures Tended(v, SchedStep(w))
  {
    hide Load, TurnedAway, Inv, Ledger, Fair, OnSweep, Quarantined;
    InvParts(w);
    forall p | p in Queue(v.e)
      ensures p in Load(w.e).log.boarded || TurnedAway(Load(w.e), p)
    {
      BoardsOrTurnedAway(w.e, p);
    }
    LoadStays(w.e);
  }

  lemma InvParts(w: World)
    requires Inv(w)
    ensures Ledger(w.e) && Quarantined(w.e)
  {
  }

  lemma LoadStays(e: Elevator)
    ensures Load(e).floor == e.floor
  {
  }

  lemma OtherFloor(w: World)
    requires w.sched.pc != Boarding && SchedStep(w).sched.pc != TestWaiting
    ensures var e, e', pc' := w.e, SchedStep(w).e, SchedStep(w).sched.pc;
      && e'.floor == e.floor && e'.waiting == e.waiting && e'.numWaiting == e.numWaiting
      && e'.log.boarded == e.log.boarded
      && (!BeforeBoarding(w.sched.pc) ==> e'.loads == e.loads && e'.status == e.status && !BeforeBoarding(pc'))
      && (BeforeBoarding(w.sched.pc) && !BeforeBoarding(pc') ==> e'.loads >= 10)
      && (pc' == TestOnboard ==> w.sched.pc == TestWaiting && e.numWaiting == 0)
      && (pc' == Resting ==> w.sched.pc == TestOnboard)
  {
    hide Leaving, Staying, Board, Move, Load;
  }

  lemma OtherTends(v: World, w: World)
    requires Tended(v, w) && w.sched.pc != Boarding && SchedStep(w).sched.pc != TestWaiting
    ensures Tended(v, SchedStep(w))
  {
    hide SchedStep;
    OtherFloor(w);
  }

  lemma RunTends(v: World, w: World)
    requires Inv(w) && TendedSince(v, w)
    ensures TendedSince(v, SchedStep(w))
  {
    hide SchedStep, Tended, Inv;
    StepRounds(w);
    if v.e.log.rounds == w.e.log.rounds && SchedStep(w).sched.pc != TestWaiting {
      if w.sched.pc == Boarding { BoardingTends(v, w); } else { OtherTends(v, w); }
    }
  }

  lemma CallTends(v: World, w: World, i: nat, call: Call)
    requires i < |w.threads| && TendedSince(v, w)
    ensures TendedSince(v, ThreadStep(w, i, call))
  {
    ThreadFrame(w, i, call);
    CallKeepsQueue(w, i, call);
  }

  lemma CallKeepsQueue(w: World, i: nat, call: Call)
    requires i < |w.threads|
    ensures forall p :: p in Queue(w.e) ==> p in Queue(ThreadStep(w, i, call).e)
  {
  }

  lemma {:induction false} RunsTend(v: World, w: World, ls: seq<Label>)
    requires Inv(w) && TendedSince(v, w)
    ensures TendedSince(v, Exec(w, ls))
    decreases ls
  {
    hide SchedStep, ThreadStep, TendedSince, Inv;
    if ls != [] {
      match ls[0] {
        case Run => RunTends(v, w);
        case Thread(i, call) => if i < |w.threads| { CallTends(v, w, i, call); }
      }
      StepKeeps(w, ls[0]);
      RunsTend(v, Step(w, ls[0]), ls[1..]);
    }
  }

  /** In every iteration of every run, whatever calls come in between: once the scheduler has loaded,
      whoever waited on this floor at the head of the loop has boarded, unless the cabin is full, or
      infected and they are human. And if anybody waited anywhere, the iteration is not spent resting. */
  lemma VisitLeavesOnlyBarred(n: nat, ls: seq<Label>, more: seq<Label>, p: Passenger)
    requires SameIteration(n, ls, more) && p in Flat(Exec(Init(n), ls).e.waiting)
    ensures var v, w := Exec(Init(n), ls), Exec(Exec(Init(n), ls), more);
      && w.sched.pc != Resting
      && (p in Queue(v.e) && !BeforeBoarding(w.sched.pc) ==>
            p in w.e.log.boarded || w.e.loads >= 10 || (w.e.status == 1 && p.kind == 0))
  {
    hide SchedStep, ThreadStep, Exec;
    var v := Exec(Init(n), ls);
    Always(n, ls);
    RunsTend(v, v, more);
  }

  // ---------- a human who is never picked up ----------

  /** Nobody waits but `h`, on the second floor. */
  ghost predicate OnlyWaits(e: Elevator, h: Passenger) {
    e.waiting[1] == [h] && forall f :: 0 <= f < FLOORS && f != 1 ==> e.waiting[f] == []
  }

  ghost predicate Running(x: Shared) {
    AtTop(x.e) && x.flags == Flags(true, false) && x.e.log.discarded == []
  }

  /** A zombie `z` rides round to the ground floor while `h` waits. */
  ghost predicate Passing(x: Shared, h: Passenger, z: Passenger) {
    && Running(x) && Human(h) && h.start == 2 && OnlyWaits(x.e, h)
    && x.e.onboard == [z] && Zombie(z) && z.dest == 1 && x.e.status == 1
  }

  lemma NobodyMoves(e: Elevator, h: Passenger, z: Passenger)
    requires OnlyWaits(e, h) && Human(h) && e.onboard == [z] && z.dest != e.floor && e.status == 1
    ensures Outgoing(e) == [] && Incoming(e) == []
  {
    assert [z][1..] == [] && Leaving([z][1..], e.floor) == [];
    if e.floor == 2 {
      assert [h][1..] == [] && Board([h][1..], 2, e.loads, 1).aboard == [];
    }
  }

  /** Away from the ground floor an iteration changes nothing but the place of the cabin. */
  lemma PassesBy(x: Shared, h: Passenger, z: Passenger)
    requires Passing(x, h, z) && x.e.floor != 1
    ensures Passing(Round(x), h, z) && Round(x).e.log.moves == x.e.log.moves + 1
    ensures Round(x).e.log.accepted == x.e.log.accepted
  {
    NobodyMoves(x.e, h, z);
    RoundKeeps(x);
    ServeWorks(x.e);
    ServeFrame(x.e);
    var y := x.(e := Serve(x.e));
    DepartOnward(y);
    DepartFlags(y);
  }

  /** On the ground floor whoever is on board gets off there, the next zombie waits, and so does `h` above. */
  ghost predicate Relay(x: Shared, h: Passenger, z: Passenger) {
    && Running(x) && Human(h) && h.start == 2 && x.e.floor == 1
    && x.e.waiting[0] == [z] && Zombie(z) && z.start == 1 && z.dest == 1
    && x.e.waiting[1] == [h] && (forall f :: 2 <= f < FLOORS ==> x.e.waiting[f] == [])
    && (x.e.onboard == [] || (|x.e.onboard| == 1 && x.e.onboard[0].dest == 1))
  }

  /** They change places: the cabin is clean for a moment, and infected again. */
  lemma AllAlight(x: Shared, h: Passenger, z: Passenger)
    requires Relay(x, h, z)
    ensures var e1 := Alight(x.e);
      e1.onboard == [] && e1.loads == 0 && e1.status == 0 && e1.floor == 1 && e1.waiting == x.e.waiting
  {
    UnloadShape(x.e);
    AlightCounts(x.e);
    StaysNobody(x.e.onboard);
  }

  lemma NextBoards(e: Elevator, h: Passenger, z: Passenger)
    requires e.onboard == [] && e.loads == 0 && e.status == 0 && e.floor == 1
    requires e.waiting[0] == [z] && Zombie(z) && z.start == 1
    requires e.waiting[1] == [h] && forall f :: 2 <= f < FLOORS ==> e.waiting[f] == []
    ensures Admit(e).onboard == [z] && Admit(e).loads == 1 && Admit(e).status == 1 && OnlyWaits(Admit(e), h)
  {
    assert [z][1..] == [] && Board([z][1..], 1, 1, 1) == Split([], [], 1, 1);
    assert Board([z], 1, 0, 0) == Split([z], [], 1, 1);
    LoadShape(e);
    LoadStatus(e);
  }

  lemma StaysNobody(s: seq<Passenger>)
    requires s == [] || (|s| == 1 && s[0].dest == 1)
    ensures Staying(s, 1) == []
  {
    if s != [] { assert s[1..] == []; }
  }

  lemma LoadStatus(e: Elevator)
    ensures Load(e).status == Board(Queue(e), e.floor, e.loads, e.status).status
  {
    assert Queue(Mark(e))[0..] == Queue(e);
  }

  lemma ServeAdmits(e: Elevator)
    ensures var s, e2 := Serve(e), Admit(Alight(e));
      && s.onboard == e2.onboard && s.loads == e2.loads && s.status == e2.status && s.waiting == e2.waiting
      && s.numWaiting == e2.numWaiting
  {
  }

  lemma RelayRuns(x: Shared, h: Passenger, z: Passenger)
    requires Relay(x, h, z)
    ensures Passing(Round(x), h, z) && Round(x).e.log.moves == x.e.log.moves + 1
    ensures Round(x).e.log.accepted == x.e.log.accepted
  {
    AllAlight(x, h, z);
    NextBoards(Alight(x.e), h, z);
    ServeAdmits(x.e);
    RoundKeeps(x);
    ServeFrame(x.e);
    WaitingCounts(x.e, h, z);
    var y := x.(e := Serve(x.e));
    DepartOnward(y);
    DepartFlags(y);
  }

  lemma WaitingCounts(e: Elevator, h: Passenger, z: Passenger)
    requires Counted(e) && e.waiting[0] == [z]
    ensures e.numWaiting != 0
  {
    assert z in e.waiting[0];
    FlatMember(e.waiting, z);
  }

  /** After `i` iterations of a period that began after `m` moves, with `a` accepted. */
  ghost predicate OnItsWay(m: nat, a: seq<Passenger>, h: Passenger, z: Passenger, x: Shared, i: nat) {
    && x.e.log.moves == m + i && x.e.log.accepted == a
    && (if i == 0 then Relay(x, h, z) else Passing(x, h, z))
  }

  lemma NotGround(m: nat, i: nat)
    requires m % 18 == 0 && 0 < i < 18
    ensures FloorAt(m + i) != 1
  {
    assert (m + i) % PERIOD == i;
  }

  lemma OnItsFloor(e: Elevator)
    requires OnSweep(e)
    ensures e.floor == FloorAt(e.log.moves)
  {
  }

  lemma OneFloorOn(m: nat, a: seq<Passenger>, h: Passenger, z: Passenger, x: Shared, i: nat)
    requires m % 18 == 0 && i < 18 && OnItsWay(m, a, h, z, x, i)
    ensures OnItsWay(m, a, h, z, Round(x), i + 1)
  {
    hide Round, Relay, FloorAt;
    if i == 0 {
      RelayRuns(x, h, z);
    } else {
      NotGround(m, i);
      OnItsFloor(x.e);
      PassesBy(x, h, z);
    }
  }

  lemma SetsOut(x: Shared, h: Passenger, z: Passenger)
    requires Relay(x, h, z)
    ensures OnItsWay(x.e.log.moves, x.e.log.accepted, h, z, x, 0)
  {
    hide FloorAt;
  }

  /** A whole period: the relay, and 17 floors on which nobody boards. */
  lemma PeriodPasses(x: Shared, h: Passenger, z: Passenger)
    requires Relay(x, h, z) && x.e.log.moves % 18 == 0
    ensures OnItsWay(x.e.log.moves, x.e.log.accepted, h, z, Rounds(x, PERIOD), PERIOD)
  {
    hide Round, OnItsWay, Iterate, Relay, FloorAt;
    var m, a := x.e.log.moves, x.e.log.accepted;
    SetsOut(x, h, z);
    var p := (y: Shared, i: nat) => OnItsWay(m, a, h, z, y, i);
    forall y: Shared, i: nat | i < PERIOD && p(y, i)
      ensures p(Round(y), i + 1)
    {
      OneFloorOn(m, a, h, z, y, i);
    }
    Marches(Round, p, x, 0, PERIOD);
  }

  /** Between two periods: the cabin is back, `h` has waited for `m` of them, and `m` others have boarded. */
  ghost predicate StillThere(w: World, h: Passenger, m: nat) {
    && Inv(w) && w.sched.pc == TestWaiting && w.threads == [Ready(0)]
    && w.flags == Flags(true, false) && w.e.log.discarded == []
    && Human(h) && h.start == 2 && OnlyWaits(w.e, h)
    && (w.e.onboard == [] || (|w.e.onboard| == 1 && w.e.onboard[0].dest == 1))
    && w.e.log.moves == 18 * m && |w.e.log.accepted| == m + 1
  }

  /** Some run leads from `w` to `w'`. */
  ghost predicate Continues(w: World, w': World) {
    exists ls :: Exec(w, ls) == w'
  }

  lemma ContinuesSelf(w: World)
    ensures Continues(w, w)
  {
    assert Exec(w, []) == w;
  }

  lemma ContinuesBy(a: World, b: World, l: Label, c: World)
    requires Continues(a, b) && Reaches(b, l, c)
    ensures Continues(a, c)
  {
    var ls :| Exec(a, ls) == b;
    var k: nat :| Exec(b, Repeat(l, k)) == c;
    ExecSplit(a, ls, Repeat(l, k));
    assert Exec(a, ls + Repeat(l, k)) == c;
  }

  const ZOMBIE := Request(1, 1, 1)

  lemma JoinsGround(e: Elevator, h: Passenger)
    requires OnlyWaits(e, h)
    ensures var e' := Enqueue(e, 1, 1, 1);
      && e'.waiting[0] == [Passenger(|e.log.accepted|, 1, 1, 1)] && e'.waiting[1] == [h]
      && (forall f :: 2 <= f < FLOORS ==> e'.waiting[f] == [])
  {
  }

  lemma ZombieQueues(w: World, h: Passenger, m: nat)
    requires StillThere(w, h, m)
    ensures Whole(w, 0, CallIssue(ZOMBIE)) == w.(e := Enqueue(w.e, 1, 1, 1))
  {
    assert w.threads[0 := Ready(0)] == w.threads;
  }

  lemma ZombieArrives(w: World, h: Passenger, m: nat) returns (w': World)
    requires StillThere(w, h, m)
    ensures Reaches(w, Thread(0, CallIssue(ZOMBIE)), w') && Inv(w') && w' == w.(e := Enqueue(w.e, 1, 1, 1))
  {
    w' := Whole(w, 0, CallIssue(ZOMBIE));
    ZombieQueues(w, h, m);
    WholeIsUninterrupted(w, 0, CallIssue(ZOMBIE));
    WholeKeeps(w, 0, CallIssue(ZOMBIE));
  }

  lemma RelayReady(w: World, w': World, h: Passenger, m: nat)
    requires StillThere(w, h, m) && Inv(w') && w' == w.(e := Enqueue(w.e, 1, 1, 1))
    ensures Relay(Shared(w'.e, w'.flags), h, Passenger(m + 1, 1, 1, 1)) && w' == With(w', Shared(w'.e, w'.flags))
  {
    hide Flat, OnlyWaits, CleanFrom;
    TopOfLoop(w');
    SweepClosedForm(w.e);
    JoinsGround(w.e, h);
  }

  lemma PeriodOver(w: World, w1: World, x: Shared, h: Passenger, z: Passenger, m: nat)
    requires StillThere(w, h, m) && w1 == w.(e := Enqueue(w.e, 1, 1, 1)) && Inv(With(w1, x))
    requires OnItsWay(w.e.log.moves, w1.e.log.accepted, h, z, x, 18)
    ensures StillThere(With(w1, x), h, m + 1)
  {
  }

  lemma RunsPeriod(w: World, x: Shared) returns (w': World)
    requires Inv(w) && w == With(w, x)
    ensures Reaches(w, Run, w') && Inv(w') && w' == With(w, Rounds(x, PERIOD))
  {
    hide Round, Rounds, Exec, Inv;
    ReachesRounds(w, x, PERIOD);
    w' := With(w, Rounds(x, PERIOD));
    var k: nat :| Exec(w, Repeat(Run, k)) == w';
    ExecKeeps(w, Repeat(Run, k));
  }

  lemma OneMorePeriod(w0: World, w: World, h: Passenger, m: nat) returns (w': World)
    requires Continues(w0, w) && StillThere(w, h, m)
    ensures Continues(w0, w') && StillThere(w', h, m + 1)
  {
    hide Round, Rounds, Exec, Inv, Relay, OnItsWay, Continues;
    var z := Passenger(m + 1, 1, 1, 1);
    var w1 := ZombieArrives(w, h, m);
    ContinuesBy(w0, w, Thread(0, CallIssue(ZOMBIE)), w1);
    RelayReady(w, w1, h, m);
    var x := Shared(w1.e, w1.flags);
    PeriodPasses(x, h, z);
    w' := RunsPeriod(w1, x);
    ContinuesBy(w0, w1, Run, w');
    PeriodOver(w, w1, Rounds(x, PERIOD), h, z, m);
  }

  lemma {:induction false} WaitsFor(w0: World, h: Passenger, m: nat) returns (w: World)
    requires StillThere(w0, h, 0)
    ensures Continues(w0, w) && StillThere(w, h, m)
    decreases m
  {
    hide Exec, StillThere, Continues;
    if m == 0 {
      w := w0;
      ContinuesSelf(w0);
    } else {
      var v := WaitsFor(w0, h, m - 1);
      w := OneMorePeriod(w0, v, h, m - 1);
    }
  }

  lemma BothCalls(w0: World, r: Request) returns (w: World)
    requires Reachable(1, w0) && w0 == Init(1) && Acceptable(r.start, r.dest, r.kind)
    ensures Reachable(1, w) && Inv(w)
    ensures w == World(Enqueue(Setup(), r.start, r.dest, r.kind), Flags(true, false), FRESH, [Ready(0)])
  {
    assert w0.threads == [Ready(0)] && w0.threads[0 := Ready(0)] == w0.threads;
    InitInv(1);
    var w1 := Whole(w0, 0, CallStart);
    assert w1 == World(Setup(), Flags(true, false), FRESH, [Ready(0)]);
    WholeIsUninterrupted(w0, 0, CallStart);
    WholeKeeps(w0, 0, CallStart);
    ReachableBy(1, w0, Thread(0, CallStart), w1);
    w := Whole(w1, 0, CallIssue(r));
    WholeIsUninterrupted(w1, 0, CallIssue(r));
    WholeKeeps(w1, 0, CallIssue(r));
    ReachableBy(1, w1, Thread(0, CallIssue(r)), w);
  }

  lemma HumanArrives() returns (w: World, h: Passenger)
    ensures Reachable(1, w) && StillThere(w, h, 0) && h == Passenger(0, 0, 2, 3)
  {
    hide Inv;
    h := Passenger(0, 0, 2, 3);
    assert Exec(Init(1), []) == Init(1);
    w := BothCalls(Init(1), Request(2, 3, 0));
  }

  /** `h` waits after `early` and still after `late`, `m` periods of the sweep later, in a running
      elevator that no stop has touched; `m` others came after `h`, and all of them have boarded. */
  ghost predicate PassedBy(h: Passenger, m: nat, early: seq<Label>, late: seq<Label>) {
    var w, w' := Exec(Init(1), early), Exec(Exec(Init(1), early), late);
    && Human(h) && h in Flat(w.e.waiting) && h in Flat(w'.e.waiting)
    && w'.e.log.moves == w.e.log.moves + 18 * m
    && w'.flags == Flags(true, false) && w'.e.log.discarded == []
    && |w'.e.log.accepted| == |w.e.log.accepted| + m && |w'.e.log.boarded| == m
    && forall p :: p in w'.e.log.boarded ==> p.id > h.id
  }

  lemma AllBoarded(w: World, h: Passenger, m: nat)
    requires StillThere(w, h, m) && h.id == 0
    ensures h in Flat(w.e.waiting) && |w.e.log.boarded| == m
    ensures forall p :: p in w.e.log.boarded ==> p.id > h.id
  {
    hide Flat, SchedStep;
    assert h in w.e.waiting[1];
    InQueue(w.e, 1, h);
    OnlyOne(w.e, h);
    BoardedCount(w.e);
    forall p | p in w.e.log.boarded
      ensures p.id > h.id
    {
      LaterOnly(w.e, h, p);
    }
  }

  lemma LaterOnly(e: Elevator, h: Passenger, p: Passenger)
    requires Conserved(e) && h in Flat(e.waiting) && p in e.log.boarded && h.id == 0
    ensures p.id > h.id
  {
    hide Flat;
    Accounted(e, p);
    Accounted(e, h);
    NumberedOnce(e.log.accepted, p);
    NumberedOnce(e.log.accepted, h);
    NotBoth(e, h);
  }

  lemma NotBoth(e: Elevator, h: Passenger)
    requires Conserved(e) && h in Flat(e.waiting)
    ensures h !in e.log.boarded
  {
    NumberedOnce(e.log.accepted, h);
    assert multiset(e.log.accepted)[h] == multiset(Flat(e.waiting))[h] + multiset(e.log.boarded)[h];
    assert h in multiset(Flat(e.waiting));
    assert h in e.log.boarded ==> h in multiset(e.log.boarded);
  }

  lemma BoardedCount(e: Elevator)
    requires Conserved(e)
    ensures |Flat(e.waiting)| + |e.log.boarded| == |e.log.accepted|
  {
    assert |multiset(Flat(e.waiting)) + multiset(e.log.boarded)| == |Flat(e.waiting)| + |e.log.boarded|;
  }

  lemma OnlyOne(e: Elevator, h: Passenger)
    requires OnlyWaits(e, h)
    ensures |Flat(e.waiting)| == 1
  {
    var none := e.waiting[1 := []];
    FlatUpdate(e.waiting, 1, []);
    FlatEmpty(none);
  }

  /** Rides are bounded, waits are not: for every `m` some run lets a human wait for `m` periods, that
      is through 2 m visits of their floor, although nobody is discarded and everybody who came later
      is picked up. */
  lemma WaitsAreUnbounded(m: nat)
    ensures exists h, early, late :: PassedBy(h, m, early, late)
  {
    var w0, h := HumanArrives();
    var early :| Exec(Init(1), early) == w0;
    var w := WaitsFor(w0, h, m);
    var late :| Exec(w0, late) == w;
    AllBoarded(w0, h, 0);
    AllBoarded(w, h, m);
    assert PassedBy(h, m, early, late);
  }
}
