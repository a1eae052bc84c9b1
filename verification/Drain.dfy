/**
 What the scheduler does when it runs undisturbed: each iteration as a function, and how soon it has
 served everybody it can serve.
 */
module Drain {
  import opened Passengers
  import opened Cabin
  import opened Critical
  import opened Sweep
  import opened Bookkeeping
  import opened AtomicMachine
  import opened Iteration

  // ---------- one iteration of the scheduler loop ----------

  /** Line 376. */
  function Alight(e: Elevator): Elevator {
    Disinfect(Free(Unload(e), Outgoing(e)))
  }

  /** Lines 377-380. */
  function Admit(e: Elevator): Elevator {
    if e.loads < CAPACITY then Load(e) else e
  }

  /** Lines 382-385. */
  function Pause(e: Elevator, doorsOpen: bool): Elevator {
    if doorsOpen then e.(motion := Motion.Loading) else e
  }

  /** Lines 376-387. */
  function Serve(e: Elevator): Elevator {
    var e1 := Alight(e);
    Pause(Admit(e1), Outgoing(e) != [] || (e1.loads < CAPACITY && Incoming(e1) != []))
  }

  /** The shared data and the lifecycle flags. */
  datatype Shared = Shared(e: Elevator, flags: Flags)

  /** Lines 389-399. */
  function Depart(x: Shared): Shared {
    var e := x.e;
    if e.loads != 0 || e.numWaiting != 0 then x.(e := EndRound(Move(Turn(e))))
    else if x.flags.deactiving then Shared(EndRound(e.(motion := Offline)), x.flags.(deactiving := false))
    else x.(e := EndRound(e))
  }

  /** Lines 401-410. */
  function Rest(x: Shared): Shared {
    x.(e := EndRound(x.e.(motion := if x.flags.started then Idle else Offline)))
  }

  function Round(x: Shared): Shared {
    if x.e.numWaiting != 0 || x.e.onboard != [] then Depart(x.(e := Serve(x.e))) else Rest(x)
  }

  /** `n` iterations with no system call between them. */
  function Rounds(x: Shared, n: nat): Shared {
    Iterate(Round, x, n)
  }

  /** At the top of the loop. The last clause is `StatusRight` there. */
  ghost predicate AtTop(e: Elevator) {
    CoreInv(e) && (e.loads == 0 ==> e.status == 0)
  }

  lemma AlightKeeps(e: Elevator)
    requires CoreInv(e)
    ensures AtTop(Alight(e))
  {
    UnloadKeeps(e);
    OutsideKeeps(Unload(e), Outgoing(e), Offline);
  }

  lemma AdmitKeeps(e: Elevator)
    requires AtTop(e)
    ensures AtTop(Admit(e))
  {
    hide Board, Flat;
    if e.loads < CAPACITY {
      LoadKeeps(e);
      LoadNobody(e);
      LoadShape(e);
    }
  }

  lemma ServeKeeps(e: Elevator)
    requires AtTop(e)
    ensures AtTop(Serve(e))
  {
    hide CoreInv;
    AlightKeeps(e);
    AdmitKeeps(Alight(e));
    OutsideKeeps(Admit(Alight(e)), [], Motion.Loading);
  }

  lemma DepartKeeps(x: Shared)
    requires AtTop(x.e)
    ensures AtTop(Depart(x).e) && AtTop(Rest(x).e)
  {
    MoveKeepsSweep(Turn(x.e));
    MinorKeeps(x.e, Depart(x).e);
    MinorKeeps(x.e, Rest(x).e);
  }

  lemma RoundKeeps(x: Shared)
    requires AtTop(x.e)
    ensures AtTop(Round(x).e)
  {
    if x.e.numWaiting != 0 || x.e.onboard != [] {
      ServeKeeps(x.e);
      DepartKeeps(x.(e := Serve(x.e)));
    } else {
      DepartKeeps(x);
    }
  }

  // ---------- the work left ----------

  /** Boarding turns two units of work into one, leaving the cabin takes the last one. */
  function Work(e: Elevator): nat {
    2 * |Flat(e.waiting)| + |e.onboard|
  }

  /** The part of the state an idle trip leaves alone. */
  ghost predicate Same(e: Elevator, e': Elevator) {
    && e'.waiting == e.waiting && e'.onboard == e.onboard && e'.numWaiting == e.numWaiting
    && e'.loads == e.loads && e'.status == e.status && e'.log.discarded == e.log.discarded
    && e'.log.accepted == e.log.accepted
  }

  lemma AlightWorks(e: Elevator)
    requires e.loads == 0 ==> e.status == 0
    ensures var e1 := Alight(e);
      && Work(e1) == Work(e) - |Outgoing(e)|
      && e1.waiting == e.waiting
      && (Outgoing(e) == [] ==> Same(e, e1))
  {
    assert e.onboard[0..] == e.onboard && e.onboard[..0] == [];
    UnloadSplits(e.onboard, e.floor);
    UnloadNobody(e.onboard, e.floor);
  }

  lemma AdmitWorks(e: Elevator)
    requires Counted(e)
    ensures var e' := Admit(e);
      && (if e.loads < CAPACITY then Work(e') == Work(e) - |Incoming(e)| else Work(e') == Work(e))
      && (e.loads >= CAPACITY || Incoming(e) == [] ==> Same(e, e'))
  {
    if e.loads < CAPACITY {
      LoadCounts(e);
      LoadShape(e);
      LoadNobody(e);
    }
  }

  lemma AlightCounts(e: Elevator)
    requires Counted(e)
    ensures Counted(Alight(e))
  {
    assert e.onboard[0..] == e.onboard && e.onboard[..0] == [];
    UnloadSplits(e.onboard, e.floor);
  }

  lemma ServeCounts(e: Elevator)
    requires Counted(e)
    ensures Counted(Serve(e))
  {
    AlightCounts(e);
    if Alight(e).loads < CAPACITY { LoadCounts(Alight(e)); }
  }

  /** Serving somebody takes work away; otherwise serving changes nothing that matters. */
  lemma ServeWorks(e: Elevator)
    requires Counted(e) && (e.loads == 0 ==> e.status == 0)
    ensures var s := Serve(e);
      && Work(s) <= Work(e)
      && (Work(s) == Work(e) ==> Same(e, s) && Outgoing(e) == [])
      && (Work(s) == Work(e) && e.loads < CAPACITY ==> Incoming(e) == [])
      && (Outgoing(e) == [] && (e.loads < CAPACITY ==> Incoming(e) == []) ==> Work(s) == Work(e))
  {
    hide CoreInv, Board, Load, Flat;
    AlightCounts(e);
    AlightWorks(e);
    AdmitWorks(Alight(e));
    assert Outgoing(e) == [] ==> Incoming(Alight(e)) == Incoming(e);
  }

  lemma ServeFrame(e: Elevator)
    ensures var s := Serve(e);
      && s.floor == e.floor && s.next == e.next && s.log.moves == e.log.moves && s.log.rounds == e.log.rounds
      && s.log.discarded == e.log.discarded && s.log.accepted == e.log.accepted
  {
  }

  lemma {:induction false} UnloadNobody(s: seq<Passenger>, floor: int)
    ensures Leaving(s, floor) == [] ==> Staying(s, floor) == s
  {
    if s != [] {
      UnloadNobody(s[1..], floor);
    }
  }

  lemma {:induction false} BoardNobody(q: seq<Passenger>, floor: int, loads: int, status: int)
    ensures var r := Board(q, floor, loads, status);
            r.aboard == [] ==> r.left == q && r.loads == loads && r.status == status
  {
    if q != [] {
      BoardNobody(q[1..], floor, loads, status);
    }
  }

  lemma LoadNobody(e: Elevator)
    ensures Incoming(e) == [] ==> Same(e, Load(e))
  {
    LoadShape(e);
    assert Queue(Mark(e))[0..] == Queue(e);
    BoardNobody(Queue(e), e.floor, e.loads, e.status);
    assert e.waiting[e.floor - 1 := Queue(e)] == e.waiting;
  }

  /** What iterations without system calls do: they never add work, and while some is left and they
      take none away, the cabin moves on once an iteration. */
  ghost predicate Onward(e: Elevator, e': Elevator) {
    && e'.log.discarded == e.log.discarded && e'.log.accepted == e.log.accepted
    && Work(e') <= Work(e)
    && (Work(e') == Work(e) ==> Same(e, e'))
    && (Work(e') == Work(e) && Work(e) > 0 ==> e'.log.moves - e.log.moves == e'.log.rounds - e.log.rounds)
  }

  lemma DepartOnward(x: Shared)
    ensures var e, e' := x.e, Depart(x).e;
      && Same(e, e') && e'.log.rounds == e.log.rounds + 1
      && (e.loads != 0 || e.numWaiting != 0 ==> e'.log.moves == e.log.moves + 1)
    ensures Same(x.e, Rest(x).e) && Rest(x).e.log.rounds == x.e.log.rounds + 1
  {
  }

  lemma RoundOnward(x: Shared)
    requires Counted(x.e) && (x.e.loads == 0 ==> x.e.status == 0)
    ensures Onward(x.e, Round(x).e) && Round(x).e.log.rounds == x.e.log.rounds + 1
  {
    if x.e.numWaiting != 0 || x.e.onboard != [] {
      ServeWorks(x.e);
      ServeCounts(x.e);
      ServeFrame(x.e);
      DepartOnward(x.(e := Serve(x.e)));
    } else {
      DepartOnward(x);
    }
  }

  lemma OnwardTrans(a: Elevator, b: Elevator, c: Elevator)
    requires Onward(a, b) && Onward(b, c)
    ensures Onward(a, c)
  {
  }

  lemma RoundsOnward(x: Shared, n: nat)
    requires AtTop(x.e)
    ensures AtTop(Rounds(x, n).e) && Onward(x.e, Rounds(x, n).e)
  {
    var p := (y: Shared) => AtTop(y.e) && Onward(x.e, y.e);
    forall y | p(y)
      ensures p(Round(y))
    {
      RoundKeeps(y);
      RoundOnward(y);
      OnwardTrans(x.e, y.e, Round(y).e);
    }
    Keeps(Round, p, x, n);
  }

  lemma RoundsCount(x: Shared, n: nat)
    ensures Rounds(x, n).e.log.rounds == x.e.log.rounds + n
  {
    var count := (y: Shared) => y.e.log.rounds;
    forall y
      ensures count(Round(y)) == count(y) + 1
    {
      ServeFrame(y.e);
      DepartOnward(y.(e := Serve(y.e)));
      DepartOnward(y);
    }
    Counts(Round, count, x, n);
  }

  // ---------- who can be served ----------

  /** `p` cannot board, now or ever: the cabin counts as full, or as infected, and holds nobody to deliver. */
  predicate Barred(e: Elevator, p: Passenger) {
    e.loads >= CAPACITY || (e.loads > 0 && e.status != 0 && Human(p))
  }

  ghost predicate Settled(e: Elevator) {
    e.onboard == [] && forall p :: p in Flat(e.waiting) ==> Barred(e, p)
  }

  /** Whoever waits here and is not barred boards, or somebody who came before. */
  lemma UnbarredBoards(e: Elevator, p: Passenger)
    requires CoreInv(e) && (e.loads == 0 ==> e.status == 0)
    requires p in Queue(e) && !Barred(e, p)
    ensures e.loads < CAPACITY && Incoming(e) != []
  {
    var q := Queue(e);
    InQueue(e, e.floor - 1, p);
    BoardNobody(q, e.floor, e.loads, e.status);
    BoardMaximal(q, e.floor, e.loads, e.status);
  }

  /** Somebody to deliver or to pick up on this floor: the next iteration does it. */
  lemma ProgressHere(x: Shared, p: Passenger)
    requires AtTop(x.e)
    requires (p in x.e.onboard && p.dest == x.e.floor) || (p in Queue(x.e) && !Barred(x.e, p))
    ensures Work(Round(x).e) < Work(x.e)
  {
    if p in x.e.onboard && p.dest == x.e.floor {
      UnloadSplits(x.e.onboard, x.e.floor);
      assert p in Outgoing(x.e);
    } else {
      UnbarredBoards(x.e, p);
      FlatMember(x.e.waiting, p);
    }
    ServeWorks(x.e);
    DepartOnward(x.(e := Serve(x.e)));
  }

  /** As long as nobody boards or leaves, the cabin follows the sweep. */
  lemma IdleTrip(x: Shared, j: nat)
    requires AtTop(x.e) && Work(x.e) > 0 && Work(Rounds(x, j).e) == Work(x.e)
    ensures AtTop(Rounds(x, j).e) && Same(x.e, Rounds(x, j).e)
    ensures Rounds(x, j).e.floor == FloorAt(x.e.log.moves + j)
  {
    hide Round, Iterate, Rounds;
    RoundsOnward(x, j);
    RoundsCount(x, j);
  }

  /** Iterations keep the invariant and never add work. */
  lemma RoundDescends(x: Shared)
    requires AtTop(x.e)
    ensures AtTop(Round(x).e) && Work(Round(x).e) <= Work(x.e)
  {
    RoundKeeps(x);
    RoundOnward(x);
  }

  /** When the cabin gets to a floor where somebody waits for it, there is progress. */
  lemma ArrivalHelps(x: Shared, p: Passenger, floor: int, j: nat)
    requires AtTop(x.e) && Work(x.e) > 0 && 1 <= floor <= FLOORS
    requires (p in x.e.onboard && p.dest == floor) || (p in x.e.waiting[floor - 1] && !Barred(x.e, p))
    requires FloorAt(x.e.log.moves + j) == floor
    ensures Work(Rounds(x, j).e) == Work(x.e) ==> Work(Round(Rounds(x, j)).e) < Work(x.e)
  {
    hide Round, Rounds, AtTop;
    var y := Rounds(x, j);
    if Work(y.e) == Work(x.e) {
      IdleTrip(x, j);
      ProgressHere(y, p);
    }
  }

  /** Within 18 iterations somebody boards or leaves, unless nobody can. */
  lemma ProgressInOnePeriod(x: Shared)
    requires AtTop(x.e) && !Settled(x.e)
    ensures Work(Rounds(x, PERIOD).e) < Work(x.e)
  {
    var p, floor := Target(x.e);
    var j := NextVisit(x.e.log.moves, floor) - x.e.log.moves;
    ArrivalHelps(x, p, floor, j);
    forall y: Shared | AtTop(y.e)
      ensures AtTop(Round(y).e) && Work(Round(y).e) <= Work(y.e)
    {
      RoundDescends(y);
    }
    Dips(Round, (y: Shared) => AtTop(y.e), (y: Shared) => Work(y.e), x, j, PERIOD);
  }

  /** Somebody the cabin can serve, and the floor to do it on. */
  lemma Target(e: Elevator) returns (p: Passenger, floor: int)
    requires CoreInv(e) && !Settled(e)
    ensures 1 <= floor <= FLOORS && Work(e) > 0
    ensures (p in e.onboard && p.dest == floor) || (p in e.waiting[floor - 1] && !Barred(e, p))
  {
    if e.onboard != [] {
      p := e.onboard[0];
      Accounted(e, p);
      floor := p.dest;
    } else {
      p :| p in Flat(e.waiting) && !Barred(e, p);
      FlatMember(e.waiting, p);
      var f :| 0 <= f < |e.waiting| && p in e.waiting[f];
      floor := f + 1;
    }
  }

  lemma SettledAdmitsNobody(e: Elevator)
    requires Conserved(e) && Quarantined(e) && Settled(e)
    ensures e.loads < CAPACITY ==> Incoming(e) == []
  {
    BoardSplits(Queue(e), e.floor, e.loads, e.status);
    BoardInfection(Queue(e), e.floor, e.loads, e.status);
    if e.loads < CAPACITY && Incoming(e) != [] {
      var p := Incoming(e)[0];
      assert p in Incoming(e);
      InQueue(e, e.floor - 1, p);
    }
  }

  lemma SettledStays(x: Shared)
    requires AtTop(x.e) && Settled(x.e)
    ensures Settled(Round(x).e)
  {
    SettledAdmitsNobody(x.e);
    ServeWorks(x.e);
    DepartOnward(x);
    DepartOnward(x.(e := Serve(x.e)));
  }

  lemma SettlesAfter(x: Shared, m: nat)
    requires AtTop(x.e) && m >= PERIOD * Work(x.e)
    ensures Settled(Rounds(x, m).e)
  {
    forall y: Shared | AtTop(y.e)
      ensures AtTop(Round(y).e) && Work(Round(y).e) <= Work(y.e)
      ensures Settled(y.e) ==> Settled(Round(y).e)
      ensures !Settled(y.e) ==> Work(Iterate(Round, y, PERIOD).e) < Work(y.e)
    {
      RoundDescends(y);
      if Settled(y.e) { SettledStays(y); } else { ProgressInOnePeriod(y); }
    }
    Settles(Round, (y: Shared) => AtTop(y.e), (y: Shared) => Settled(y.e), (y: Shared) => Work(y.e), PERIOD, x, m);
  }

  /** The measure: 18 iterations for every unit of work, whatever the cabin lost to earlier stops. Who
      waits then cannot board: the cabin counts as full, or as infected and they are human. */
  lemma SettlesInTime(x: Shared, m: nat)
    requires AtTop(x.e) && m >= 18 * Work(x.e)
    ensures Settled(Rounds(x, m).e)
    ensures var e' := Rounds(x, m).e;
      && e'.onboard == []
      && forall p :: p in Flat(e'.waiting) ==> e'.loads >= 10 || (e'.loads > 0 && e'.status == 1 && p.kind == 0)
  {
    hide Rounds, Work, Flat, Iterate, Ledger, Fair, OnSweep;
    SettlesAfter(x, m);
    RoundsOnward(x, m);
  }

  // ---------- draining ----------

  /** All lists and counters empty, and the cabin clean. */
  ghost predicate Quiet(e: Elevator) {
    && Flat(e.waiting) == [] && e.onboard == []
    && (forall f :: 0 <= f < FLOORS ==> e.onFloor[f] == 0)
    && e.numWaiting == 0 && e.loads == 0 && e.status == 0
  }

  lemma SomeMember(s: seq<Passenger>)
    ensures s == [] || exists p :: p in s
  {
    if s != [] {
      assert s[0] in s;
    }
  }

  /** With an honest `loads`, the building is empty after 18 iterations per unit of work, and
      everybody was delivered. */
  lemma DrainsInTime(x: Shared, m: nat)
    requires AtTop(x.e) && x.e.loads == |x.e.onboard|
    requires m >= 18 * (2 * x.e.numWaiting + x.e.loads)
    ensures var e' := Rounds(x, m).e;
            Quiet(e') && e'.serviced == x.e.serviced + x.e.numWaiting + x.e.loads
  {
    var e' := Rounds(x, m).e;
    SettlesInTime(x, m);
    RoundsOnward(x, m);
    CountersAddUp(x.e);
    CountersAddUp(e');
    assert e'.loads == 0;
    assert forall p :: p in Flat(e'.waiting) ==> Barred(e', p);
    SomeMember(Flat(e'.waiting));
    FlatEmpty(e'.waiting);
  }

  /** A stop that discarded anybody rules draining out for good: it happens exactly when `loads` still
      counts the riders. */
  lemma DrainsExactlyWhenHonest(x: Shared)
    requires AtTop(x.e)
    ensures (exists m: nat :: Quiet(Rounds(x, m).e)) <==> x.e.loads == |x.e.onboard|
  {
    if x.e.loads == |x.e.onboard| {
      var m := 18 * (2 * x.e.numWaiting + x.e.loads);
      DrainsInTime(x, m);
    } else {
      forall m: nat
        ensures !Quiet(Rounds(x, m).e)
      {
        RoundsOnward(x, m);
      }
    }
  }
}
