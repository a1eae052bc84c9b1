/** The scheduler thread, stepped alone, does the iterations of module Drain; what that means for runs. */
module Undisturbed {
  import opened Passengers
  import opened Cabin
  import opened Critical
  import opened Bookkeeping
  import opened AtomicMachine
  import opened Runs
  import opened Drain

  /** `w'` is reached from `w` when only one thread runs. */
  ghost predicate Reaches(w: World, l: Label, w': World) {
    exists k: nat :: Exec(w, Repeat(l, k)) == w'
  }

  function Repeat(l: Label, k: nat): seq<Label> {
    seq(k, _ => l)
  }

  lemma RepeatUnfolds(w: World, l: Label, k: nat)
    ensures Exec(w, Repeat(l, k)) == if k == 0 then w else Exec(Step(w, l), Repeat(l, k - 1))
  {
    if k > 0 {
      assert Repeat(l, k)[1..] == Repeat(l, k - 1) && Repeat(l, k)[0] == l;
    }
  }

  lemma ReachesTrans(a: World, l: Label, b: World, c: World)
    requires Reaches(a, l, b) && Reaches(b, l, c)
    ensures Reaches(a, l, c)
  {
    hide Step;
    var j: nat :| Exec(a, Repeat(l, j)) == b;
    var k: nat :| Exec(b, Repeat(l, k)) == c;
    ExecSplit(a, Repeat(l, j), Repeat(l, k));
    assert Repeat(l, j) + Repeat(l, k) == Repeat(l, j + k);
  }

  lemma ReachesStep(w: World, l: Label)
    ensures Reaches(w, l, w) && Reaches(w, l, Step(w, l))
  {
    assert Exec(w, Repeat(l, 0)) == w;
    assert Repeat(l, 1) == [l];
    assert Exec(w, Repeat(l, 1)) == Exec(Step(w, l), []) == Step(w, l);
  }

  lemma ReachesNext(a: World, l: Label, b: World)
    requires Reaches(a, l, b)
    ensures Reaches(a, l, Step(b, l))
  {
    ReachesStep(b, l);
    ReachesTrans(a, l, b, Step(b, l));
  }

  /** `w` with its delete list freed. */
  function BinFreed(w: World): World
    requires w.sched.pc == Freeing
  {
    w.(e := Free(w.e, w.sched.bin), sched := w.sched.(pc := Disinfecting, bin := []))
  }

  lemma FreesOne(w: World)
    requires w.sched.pc == Freeing
    ensures var w1 := SchedStep(w);
      if w.sched.bin == [] then w1 == BinFreed(w)
      else w1.sched.pc == Freeing && |w1.sched.bin| < |w.sched.bin| && BinFreed(w1) == BinFreed(w)
  {
    var s := w.sched.bin;
    if s == [] {
      assert w.e.log.freed + [] == w.e.log.freed;
    } else {
      assert (w.e.log.freed + [s[0]]) + s[1..] == w.e.log.freed + s;
    }
  }

  /** Freeing the delete list, node by node. */
  lemma {:induction false} FreesBin(w: World)
    requires w.sched.pc == Freeing
    ensures Reaches(w, Run, BinFreed(w))
    decreases |w.sched.bin|
  {
    hide SchedStep, Exec, BinFreed;
    ReachesStep(w, Run);
    FreesOne(w);
    if w.sched.bin != [] {
      var w1 := SchedStep(w);
      FreesBin(w1);
      ReachesTrans(w, Run, w1, BinFreed(w));
    }
  }

  lemma ReachesUnloaded(w: World)
    requires w.sched.pc == Unloading
    ensures var out := Outgoing(w.e);
            Reaches(w, Run, w.(e := Free(Unload(w.e), out),
                          sched := w.sched.(pc := Disinfecting, bin := [], unloaded := out != [])))
  {
    var w1 := SchedStep(w);
    ReachesStep(w, Run);
    FreesBin(w1);
    ReachesTrans(w, Run, w1, BinFreed(w1));
  }

  lemma ReachesAdmitted(w: World)
    requires w.sched.pc == TestRoom
    ensures var boards := if w.e.loads < CAPACITY then Incoming(w.e) != [] else w.sched.loaded;
            Reaches(w, Run, w.(e := Admit(w.e), sched := w.sched.(pc := Pausing, loaded := boards)))
  {
    var w1 := SchedStep(w);
    ReachesStep(w, Run);
    ReachesNext(w, Run, w1);
  }

  lemma ReachesPaused(w: World)
    requires w.sched.pc == Pausing
    ensures Reaches(w, Run, w.(e := Pause(w.e, w.sched.unloaded || w.sched.loaded), sched := w.sched.(pc := TestLoads)))
  {
    ReachesStep(w, Run);
  }

  lemma ReachesServed(w: World)
    requires w.sched == FRESH.(pc := Unloading)
    ensures exists u, l :: Reaches(w, Run, w.(e := Serve(w.e), sched := Sched(TestLoads, [], u, l)))
  {
    var out, e1 := Outgoing(w.e), Alight(w.e);
    var boarding := e1.loads < CAPACITY && Incoming(e1) != [];
    var w1 := w.(e := Free(Unload(w.e), out), sched := Sched(Disinfecting, [], out != [], false));
    ReachesUnloaded(w);
    ReachesNext(w, Run, w1);
    var w2 := w.(e := e1, sched := Sched(TestRoom, [], out != [], false));
    assert SchedStep(w1) == w2;
    ReachesAdmitted(w2);
    var w3 := w.(e := Admit(e1), sched := Sched(Pausing, [], out != [], boarding));
    ReachesTrans(w, Run, w2, w3);
    ReachesPaused(w3);
    ReachesTrans(w, Run, w3, w.(e := Serve(w.e), sched := Sched(TestLoads, [], out != [], boarding)));
  }

  lemma ReachesDriven(w: World)
    requires w.sched.pc == Turning
    ensures Reaches(w, Run, w.(e := EndRound(Move(Turn(w.e))), sched := FRESH))
  {
    ReachesStep(w, Run);
    ReachesNext(w, Run, SchedStep(w));
  }

  lemma ReachesStopped(w: World)
    requires w.sched.pc == TestStop
    ensures Reaches(w, Run, if w.flags.deactiving
                       then w.(e := EndRound(w.e.(motion := Offline)), flags := w.flags.(deactiving := false),
                               sched := FRESH)
                       else w.(e := EndRound(w.e), sched := FRESH))
  {
    ReachesStep(w, Run);
    ReachesNext(w, Run, SchedStep(w));
  }

  lemma ReachesDeparted(w: World)
    requires w.sched.pc == TestLoads
    ensures var x := Depart(Shared(w.e, w.flags));
            Reaches(w, Run, w.(e := x.e, flags := x.flags, sched := FRESH))
  {
    var w1 := SchedStep(w);
    ReachesStep(w, Run);
    var w2 := if w1.sched.pc == TestQueues then SchedStep(w1) else w1;
    ReachesNext(w, Run, w1);
    assert w2.e == w.e && w2.flags == w.flags;
    var x := Depart(Shared(w.e, w.flags));
    if w2.sched.pc == Turning {
      ReachesDriven(w2);
    } else {
      ReachesStopped(w2);
    }
    ReachesTrans(w, Run, w2, w.(e := x.e, flags := x.flags, sched := FRESH));
  }

  lemma ReachesEntered(w: World)
    requires w.sched == FRESH
    ensures var pc := if w.e.numWaiting != 0 || w.e.onboard != [] then Unloading else Resting;
            Reaches(w, Run, w.(sched := FRESH.(pc := pc)))
  {
    var w1 := SchedStep(w);
    ReachesStep(w, Run);
    ReachesNext(w, Run, w1);
  }

  lemma ReachesServedRound(w: World)
    requires w.sched == FRESH.(pc := Unloading)
    ensures var x := Depart(Shared(Serve(w.e), w.flags));
            Reaches(w, Run, w.(e := x.e, flags := x.flags, sched := FRESH))
  {
    ReachesServed(w);
    var u, l :| Reaches(w, Run, w.(e := Serve(w.e), sched := Sched(TestLoads, [], u, l)));
    var w1 := w.(e := Serve(w.e), sched := Sched(TestLoads, [], u, l));
    var x := Depart(Shared(w1.e, w1.flags));
    ReachesDeparted(w1);
    ReachesTrans(w, Run, w1, w1.(e := x.e, flags := x.flags, sched := FRESH));
  }

  /** One iteration of the loop, as steps of the scheduler thread. */
  lemma ReachesRound(w: World)
    requires w.sched == FRESH
    ensures var x := Round(Shared(w.e, w.flags));
            Reaches(w, Run, w.(e := x.e, flags := x.flags, sched := FRESH))
  {
    var x := Round(Shared(w.e, w.flags));
    ReachesEntered(w);
    if w.e.numWaiting != 0 || w.e.onboard != [] {
      var w1 := w.(sched := FRESH.(pc := Unloading));
      ReachesServedRound(w1);
      ReachesTrans(w, Run, w1, w.(e := x.e, flags := x.flags, sched := FRESH));
    } else {
      ReachesNext(w, Run, w.(sched := FRESH.(pc := Resting)));
    }
  }

  /** `w` between two iterations, with other data and flags. */
  function With(w: World, x: Shared): World {
    w.(e := x.e, flags := x.flags, sched := FRESH)
  }

  lemma {:induction false} ReachesRounds(w: World, x: Shared, n: nat)
    ensures Reaches(With(w, x), Run, With(w, Rounds(x, n)))
    decreases n
  {
    hide Round;
    if n == 0 {
      ReachesStep(With(w, x), Run);
    } else {
      ReachesRound(With(w, x));
      ReachesRounds(w, Round(x), n - 1);
      ReachesTrans(With(w, x), Run, With(w, Round(x)), With(w, Rounds(x, n)));
    }
  }

  lemma TopOfLoop(w: World)
    requires Inv(w) && w.sched.pc == TestWaiting
    ensures AtTop(w.e) && w == With(w, Shared(w.e, w.flags))
  {
    assert w.e.loads == 0 ==> !ZombieSince(w.e, CleanFrom(w.e));
  }

  // ---------- from anywhere in the loop to its top ----------

  /** What any steps of the scheduler alone leave as it was, or only diminish. */
  ghost predicate Later(w: World, w': World) {
    && w'.threads == w.threads && w'.flags.started == w.flags.started
    && w'.e.log.discarded == w.e.log.discarded && w'.e.log.accepted == w.e.log.accepted
    && Work(w'.e) <= Work(w.e)
  }

  lemma UnloadLater(e: Elevator)
    ensures Work(Unload(e)) <= Work(e)
  {
    UnloadShape(e);
    UnloadSplits(e.onboard, e.floor);
  }

  lemma LoadLater(e: Elevator)
    requires Counted(e)
    ensures Work(Load(e)) <= Work(e)
  {
    LoadCounts(e);
    LoadShape(e);
  }

  lemma StepLater(w: World)
    requires Counted(w.e)
    ensures Later(w, SchedStep(w))
  {
    if w.sched.pc == Unloading {
      UnloadLater(w.e);
    } else if w.sched.pc == Boarding {
      LoadLater(w.e);
    }
  }

  lemma StepRounds(w: World)
    ensures SchedStep(w).e.log.rounds == w.e.log.rounds + if SchedStep(w).sched.pc == TestWaiting then 1 else 0
  {
  }

  /** How far the top of the loop is. */
  function Rank(pc: Pc): nat {
    match pc
    case TestWaiting => 0
    case Moving => 1
    case Resting => 1
    case Turning => 2
    case Retiring => 2
    case TestStop => 3
    case TestQueues => 4
    case TestLoads => 5
    case Pausing => 6
    case Boarding => 7
    case TestRoom => 8
    case Disinfecting => 9
    case Freeing => 10
    case Unloading => 11
    case TestOnboard => 12
  }

  lemma StepNearer(w: World)
    requires w.sched.pc != TestWaiting
    ensures var s := SchedStep(w).sched;
            Rank(s.pc) < Rank(w.sched.pc) || (Rank(s.pc) == Rank(w.sched.pc) && |s.bin| < |w.sched.bin|)
  {
  }

  /** Wherever it is, the scheduler alone gets to the top of its loop, and ends one round on the way
      unless it is there. */
  lemma {:induction false} ReachesTop(w: World) returns (top: World)
    requires Inv(w)
    ensures Reaches(w, Run, top) && Inv(top) && top.sched.pc == TestWaiting && Later(w, top)
    ensures top.e.log.rounds == w.e.log.rounds + if w.sched.pc == TestWaiting then 0 else 1
    decreases Rank(w.sched.pc), |w.sched.bin|
  {
    ReachesStep(w, Run);
    if w.sched.pc == TestWaiting {
      top := w;
    } else {
      var w1 := SchedStep(w);
      SchedKeeps(w);
      StepLater(w);
      StepRounds(w);
      StepNearer(w);
      top := ReachesTop(w1);
      ReachesTrans(w, Run, w1, top);
    }
  }

  // ---------- draining ----------

  /** `w` with everybody delivered, at the top of the loop, after at most `m` more rounds. */
  ghost predicate DrainedWithin(w: World, m: nat, w': World) {
    && w'.sched.pc == TestWaiting && Quiet(w'.e)
    && w'.e.log.rounds <= w.e.log.rounds + m
    && w'.e.serviced == w.e.serviced + w.e.numWaiting + w.e.loads
  }

  lemma DrainsFromTop(w: World, x: Shared, m: nat) returns (w': World)
    requires w == With(w, x) && AtTop(x.e) && x.e.loads == |x.e.onboard|
    requires m >= 18 * (2 * x.e.numWaiting + x.e.loads)
    ensures Reaches(w, Run, w') && DrainedWithin(w, m, w') && w'.threads == w.threads
  {
    CountersAddUp(x.e);
    DrainsInTime(x, m);
    RoundsCount(x, m);
    ReachesRounds(w, x, m);
    w' := With(w, Rounds(x, m));
  }

  /** The bound counts one iteration for the one under way, and 18 per boarding and per ride due. */
  function DrainBound(e: Elevator): int {
    1 + 18 * (2 * e.numWaiting + e.loads)
  }

  lemma Honest(w: World)
    requires Inv(w)
    ensures w.e.loads == |w.e.onboard| <==> w.e.log.discarded == []
    ensures w.e.numWaiting >= 0 && w.e.loads >= 0 && DrainBound(w.e) >= 1
    ensures w.e.loads == |w.e.onboard| ==> Work(w.e) == 2 * w.e.numWaiting + w.e.loads
    ensures w.e.numWaiting + w.e.loads + w.e.serviced == |w.e.log.accepted|
  {
    CountersAddUp(w.e);
  }

  lemma DrainsFrom(w: World) returns (w': World)
    requires Inv(w) && w.e.loads == |w.e.onboard|
    ensures DrainBound(w.e) >= 1
    ensures Reaches(w, Run, w') && DrainedWithin(w, DrainBound(w.e), w') && w'.threads == w.threads
  {
    Honest(w);
    var top := ReachesTop(w);
    Honest(top);
    TopOfLoop(top);
    w' := DrainsFromTop(top, Shared(top.e, top.flags), DrainBound(w.e) - 1);
    ReachesTrans(w, Run, top, w');
  }

  /** After any run, wherever the scheduler is, provided `loads` is the number of riders: once the
      system calls cease, the scheduler delivers everybody within 18 iterations per boarding and per
      ride due, and the one under way. */
  lemma EveryRunDrains(n: nat, ls: seq<Label>)
    requires Exec(Init(n), ls).e.loads == |Exec(Init(n), ls).e.onboard|
    ensures var w := Exec(Init(n), ls);
            exists k: nat :: var w' := Exec(w, Repeat(Run, k));
              && w'.sched.pc == TestWaiting && Quiet(w'.e)
              && w'.e.log.rounds <= w.e.log.rounds + 1 + 18 * (2 * w.e.numWaiting + w.e.loads)
              && w'.e.serviced == w.e.serviced + w.e.numWaiting + w.e.loads
  {
    var w := Exec(Init(n), ls);
    Always(n, ls);
    var w' := DrainsFrom(w);
    var k: nat :| Exec(w, Repeat(Run, k)) == w';
  }

  lemma {:induction false} NeverQuiet(w: World, k: nat)
    requires Inv(w) && w.e.log.discarded != []
    ensures !Quiet(Exec(w, Repeat(Run, k)).e)
    decreases k
  {
    RepeatUnfolds(w, Run, k);
    if k > 0 {
      SchedKeeps(w);
      StepLater(w);
      NeverQuiet(SchedStep(w), k - 1);
    }
  }

  /** And otherwise it never does. */
  lemma EveryRunDrainsExactlyWhen(n: nat, ls: seq<Label>)
    ensures var w := Exec(Init(n), ls);
            (exists k: nat :: Quiet(Exec(w, Repeat(Run, k)).e)) <==> w.e.loads == |w.e.onboard|
  {
    var w := Exec(Init(n), ls);
    Always(n, ls);
    Honest(w);
    if w.e.loads == |w.e.onboard| {
      EveryRunDrains(n, ls);
    } else {
      forall k: nat
        ensures !Quiet(Exec(w, Repeat(Run, k)).e)
      {
        NeverQuiet(w, k);
      }
    }
  }
}
