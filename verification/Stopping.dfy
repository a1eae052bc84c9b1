/**
 What a stop leads to. Lines 191-192 set its flags without the mutex and line 193 then waits for it, so
 the scheduler may run in between; what decides is the state in which the stop takes its section.
 */
module Stopping {
  import opened Passengers
  import opened Cabin
  import opened Bookkeeping
  import opened AtomicMachine
  import opened Runs
  import opened Histories
  import opened Drain
  import opened Undisturbed
  import opened Shutdown
  import opened Clearing
  import opened SystemCalls

  // ---------- the section of a stop ----------

  /** Nobody is on board or was discarded, and somebody is to be served or the scheduler is serving. */
  predicate Completes(w: World) {
    w.e.loads == 0 && (w.e.numWaiting > 0 || InBody(w.sched.pc))
  }

  /** Thread `i` takes its section: everybody on board goes to its delete list. */
  function Emptied(w: World, i: nat): World
    requires i < |w.threads| && w.threads[i] == StopEnter
  {
    Step(w, Thread(i, CallStop))
  }

  lemma SectionFrame(w: World, i: nat)
    requires i < |w.threads| && w.threads[i] == StopEnter
    ensures var v := Emptied(w, i);
      && v.flags == w.flags && v.sched == w.sched && v.threads == w.threads[i := StopFree(w.e.onboard)]
      && v.e == Discard(w.e)
  {
  }

  ghost predicate Hung(w: World) {
    w.flags.deactiving && !CanClear(w)
  }

  /** A stop leaves `CanClear` behind exactly if it finds `Completes`. */
  lemma DiscardDecides(w: World, v: World)
    requires Counted(w.e) && v.sched == w.sched && v.e.numWaiting == w.e.numWaiting && v.e.onboard == []
    requires v.e.log.discarded == w.e.log.discarded + w.e.onboard && w.e.numWaiting >= 0
    ensures CanClear(v) <==> Completes(w)
  {
    assert w.e.log.discarded + w.e.onboard == [] <==> |w.e.log.discarded| + |w.e.onboard| == 0;
  }

  lemma SectionDecides(w: World, i: nat)
    requires Inv(w) && i < |w.threads| && w.threads[i] == StopEnter
    ensures Inv(Emptied(w, i)) && (CanClear(Emptied(w, i)) <==> Completes(w))
  {
    StepKeeps(w, Thread(i, CallStop));
    SectionFrame(w, i);
    DiscardDecides(w, Emptied(w, i));
  }

  // ---------- until the stop returns, and after ----------

  /** A step of the scheduler, or of thread `i` on its way out of a stop. */
  predicate Ends(w: World, i: nat, l: Label) {
    l.Run? || (l.i == i && i < |w.threads| && w.threads[i].StopFree?)
  }

  /** No other step comes in between: no call follows. */
  predicate Unwinds(w: World, i: nat, ls: seq<Label>)
    decreases ls
  {
    ls == [] || (Ends(w, i, ls[0]) && Unwinds(Step(w, ls[0]), i, ls[1..]))
  }

  lemma FreeingFrame(w: World, i: nat, call: Call)
    requires i < |w.threads| && w.threads[i].StopFree?
    ensures var v := ThreadStep(w, i, call);
      && v.flags == w.flags && v.sched == w.sched && v.e.numWaiting == w.e.numWaiting
      && v.e.onboard == w.e.onboard && v.e.log == w.e.log.(freed := v.e.log.freed)
  {
  }

  /** What is settled once the stop has had its section. */
  ghost predicate Follows(w: World, v: World) {
    && v.flags.started == w.flags.started
    && v.e.log.discarded == w.e.log.discarded && v.e.log.accepted == w.e.log.accepted
    && (Clearable(w) ==> Clearable(v)) && (Hung(w) ==> Hung(v))
  }

  lemma EndsFollow(w: World, i: nat, l: Label)
    requires Inv(w) && Ends(w, i, l)
    ensures Inv(Step(w, l)) && Follows(w, Step(w, l))
  {
    hide SchedStep;
    StepKeeps(w, l);
    if l.Run? {
      StepLater(w);
      if Clearable(w) { StepStaysClearable(w); }
      if Hung(w) { StepHangs(w); }
    } else {
      FreeingFrame(w, i, l.call);
    }
  }

  lemma {:induction false} UnwindsFollow(w: World, i: nat, ls: seq<Label>)
    requires Inv(w) && Unwinds(w, i, ls)
    ensures Inv(Exec(w, ls)) && Follows(w, Exec(w, ls))
    decreases ls
  {
    if ls != [] {
      EndsFollow(w, i, ls[0]);
      UnwindsFollow(Step(w, ls[0]), i, ls[1..]);
    }
  }

  /** From a state that can clear the flag or has it clear the scheduler gets there, from the others never. */
  lemma ClearsOrHangs(w: World, good: bool)
    requires Inv(w) && (if good then Clearable(w) else Hung(w))
    ensures (exists k: nat :: !Exec(w, Repeat(Run, k)).flags.deactiving) <==> good
  {
    if w.flags.deactiving {
      ClearsExactlyWhen(w);
    } else {
      assert Exec(w, Repeat(Run, 0)) == w;
    }
  }

  /** A stop takes its section in any state of any run, with `deactiving` set, and no call follows: at
      any time from then on, the scheduler will clear the flag if and only if the section was taken
      with `loads` zero, and either somebody waiting or the scheduler past the test at the head of its
      loop. */
  lemma StopCompletesExactlyWhen(n: nat, ls: seq<Label>, i: nat, more: seq<Label>)
    requires var w := Exec(Init(n), ls);
      && i < |w.threads| && w.threads[i] == StopEnter && w.flags.deactiving
      && Unwinds(Emptied(w, i), i, more)
    ensures var w := Exec(Init(n), ls);
      (exists k: nat :: !Exec(Exec(Emptied(w, i), more), Repeat(Run, k)).flags.deactiving)
      <==> w.e.loads == 0 && (w.e.numWaiting > 0 || InBody(w.sched.pc))
  {
    var w := Exec(Init(n), ls);
    Always(n, ls);
    SectionFrame(w, i);
    SectionDecides(w, i);
    UnwindsFollow(Emptied(w, i), i, more);
    ClearsOrHangs(Exec(Emptied(w, i), more), Completes(w));
  }

  // ---------- whom a stop lets be served ----------

  /** `v` comes after the section of a stop that took it in `w`, with flags `f`, and found nobody. */
  ghost predicate Stopped(w: World, f: Flags, v: World) {
    && v.flags.started == f.started && v.e.log.accepted == w.e.log.accepted && v.e.log.discarded == []
    && (f.deactiving && !Completes(w) ==> Hung(v)) && (!f.deactiving || Completes(w) ==> Clearable(v))
  }

  /** The scheduler, left alone in `v`, got to `w'`: whoever waited in `w` was served, and the elevator
      shows that it is at rest. */
  ghost predicate ShutDown(w: World, f: Flags, v: World, w': World) {
    && w'.sched.pc == TestWaiting && Quiet(w'.e)
    && w'.e.motion == (if f.started then Idle else Offline)
    && w'.flags == Flags(f.started, f.deactiving && !(w.e.numWaiting > 0 || InBody(w.sched.pc)))
    && w'.e.serviced == w.e.serviced + w.e.numWaiting
    && w'.e.log.rounds <= v.e.log.rounds + 2 + 18 * (2 * v.e.numWaiting + v.e.loads)
  }

  lemma RestShows(w: World) returns (w': World)
    requires Inv(w) && w.sched.pc == TestWaiting && Quiet(w.e)
    ensures Reaches(w, Run, w') && w'.sched.pc == TestWaiting && Quiet(w'.e)
    ensures w'.flags == w.flags && w'.e.motion == (if w.flags.started then Idle else Offline)
    ensures w'.e.serviced == w.e.serviced && w'.e.log.rounds == w.e.log.rounds + 1
  {
    ReachesRound(w);
    w' := w.(e := EndRound(w.e.(motion := if w.flags.started then Idle else Offline)));
  }

  lemma ReachesFollows(w: World, w': World)
    requires Inv(w) && Reaches(w, Run, w')
    ensures Inv(w') && Follows(w, w')
  {
    var k: nat :| Exec(w, Repeat(Run, k)) == w';
    ExecKeeps(w, Repeat(Run, k));
    ReachesLater(w, w');
    if Clearable(w) { StaysClearable(w, k); }
    if Hung(w) { StaysHung(w, k); }
  }

  lemma {:induction false} StaysHung(w: World, k: nat)
    requires Inv(w) && Hung(w)
    ensures Hung(Exec(w, Repeat(Run, k)))
    decreases k
  {
    RepeatUnfolds(w, Run, k);
    if k > 0 {
      SchedKeeps(w);
      StepHangs(w);
      StaysHung(SchedStep(w), k - 1);
    }
  }

  lemma ShutsDown(w: World, f: Flags, v: World) returns (w': World)
    requires Inv(w) && Inv(v) && w.e.loads == 0 && Stopped(w, f, v)
    ensures Reaches(v, Run, w') && Inv(w') && ShutDown(w, f, v, w')
  {
    Honest(v);
    var u := DrainsFrom(v);
    ReachesFollows(v, u);
    w' := RestShows(u);
    ReachesTrans(v, Run, u, w');
    ReachesFollows(v, w');
    Honest(w);
    Honest(w');
    assert !CanClear(w');
  }

  /** A stop takes its section in any state of any run, finds nobody on board and nobody discarded
      (`loads` zero), and no call follows. At any time from then on, the scheduler alone serves whoever
      waited at the section, within 36 iterations for each still waiting and 18 for each on board, and
      two more show the elevator at rest; then `deactiving` is as StopCompletesExactlyWhen says. */
  lemma StopAnywhere(n: nat, ls: seq<Label>, i: nat, more: seq<Label>)
    requires var w := Exec(Init(n), ls);
      && i < |w.threads| && w.threads[i] == StopEnter && w.e.loads == 0
      && Unwinds(Emptied(w, i), i, more)
    ensures var w := Exec(Init(n), ls);
            var v := Exec(Emptied(w, i), more);
            exists k: nat :: ShutDown(w, w.flags, v, Exec(v, Repeat(Run, k)))
  {
    var w := Exec(Init(n), ls);
    Always(n, ls);
    StoppedAt(w, i);
    UnwindsFollow(Emptied(w, i), i, more);
    var v := Exec(Emptied(w, i), more);
    var w' := ShutsDown(w, w.flags, v);
    var k: nat :| Exec(v, Repeat(Run, k)) == w';
  }

  lemma StoppedAt(w: World, i: nat)
    requires Inv(w) && i < |w.threads| && w.threads[i] == StopEnter && w.e.loads == 0
    ensures Inv(Emptied(w, i)) && Stopped(w, w.flags, Emptied(w, i))
  {
    SectionFrame(w, i);
    SectionDecides(w, i);
  }

  // ---------- stops that nothing interrupts ----------

  lemma WholeStop(w: World, i: nat)
    requires Inv(w) && i < |w.threads| && w.threads[i].Ready? && w.flags == Flags(true, false)
    ensures var v := Whole(w, i, CallStop);
      && Inv(v) && v.flags == Flags(false, true) && (CanClear(v) <==> Completes(w))
      && v.e.log.discarded == w.e.log.discarded + w.e.onboard && v.e.log.accepted == w.e.log.accepted
  {
    WholeKeeps(w, i, CallStop);
    DiscardDecides(w, Whole(w, i, CallStop));
  }

  /** If nothing interrupts the stop, the state in which it is called decides. */
  lemma WholeStopCompletesExactlyWhen(n: nat, ls: seq<Label>, i: nat)
    requires var w := Exec(Init(n), ls);
      i < |w.threads| && w.threads[i].Ready? && w.flags == Flags(true, false)
    ensures var w := Exec(Init(n), ls);
      (exists k: nat :: !Exec(Whole(w, i, CallStop), Repeat(Run, k)).flags.deactiving)
      <==> w.e.loads == 0 && (w.e.numWaiting > 0 || InBody(w.sched.pc))
  {
    var w := Exec(Init(n), ls);
    Always(n, ls);
    WholeStop(w, i);
    ClearsExactlyWhen(Whole(w, i, CallStop));
  }

  /** And if it found `loads` zero when called, whoever waited then is served. */
  lemma WholeStopAnywhere(n: nat, ls: seq<Label>, i: nat)
    requires var w := Exec(Init(n), ls);
      i < |w.threads| && w.threads[i].Ready? && w.flags == Flags(true, false) && w.e.loads == 0
    ensures var w := Exec(Init(n), ls);
            var v := Whole(w, i, CallStop);
            exists k: nat :: ShutDown(w, Flags(false, true), v, Exec(v, Repeat(Run, k)))
  {
    var w := Exec(Init(n), ls);
    var v := Whole(w, i, CallStop);
    Always(n, ls);
    WholeStop(w, i);
    var w' := ShutsDown(w, Flags(false, true), v);
    var k: nat :| Exec(v, Repeat(Run, k)) == w';
  }

  lemma EmptyWhole(w: World, i: nat)
    requires Counted(w.e) && w.e.loads == 0 && i < |w.threads| && w.flags == Flags(true, false)
    ensures Whole(w, i, CallStop) == w.(flags := Flags(false, true), threads := w.threads[i := Ready(0)])
  {
    assert w.e.onboard == [] && w.e.log.discarded + [] == w.e.log.discarded && w.e.log.freed + [] == w.e.log.freed;
  }

  lemma GracefulRuns(w: World, x: Shared, m: nat)
    requires w.sched.pc == TestWaiting && x == Shared(w.e, w.flags) && AtTop(x.e) && x.flags == Flags(false, true)
    requires x.e.loads == 0 && x.e.numWaiting > 0 && m == 36 * x.e.numWaiting
    ensures exists k: nat :: var w' := Exec(w, Repeat(Run, k));
              && w'.sched.pc == TestWaiting && w'.flags == Flags(false, false) && w'.e.motion == Offline
              && Quiet(w'.e) && w'.e.serviced == x.e.serviced + x.e.numWaiting
              && w'.e.log.rounds == x.e.log.rounds + m
  {
    GracefulStop(x, m);
    RoundsCount(x, m);
    assert With(w, x) == w;
    ReachesRounds(w, x, m);
    var k: nat :| Exec(w, Repeat(Run, k)) == With(w, Rounds(x, m));
  }

  /** A stop that nothing interrupts, called between two iterations, that finds nobody on board and
      somebody waiting: everybody is served within 36 iterations each, and the elevator ends up
      offline, with both flags clear. */
  lemma StopBetweenRounds(n: nat, ls: seq<Label>, i: nat)
    requires var w := Exec(Init(n), ls);
      && w.sched.pc == TestWaiting && w.flags == Flags(true, false)
      && w.e.loads == 0 && w.e.numWaiting > 0 && i < |w.threads|
    ensures var w := Exec(Init(n), ls);
            exists k: nat :: var w' := Exec(Whole(w, i, CallStop), Repeat(Run, k));
              && w'.sched.pc == TestWaiting && w'.flags == Flags(false, false) && w'.e.motion == Offline
              && Quiet(w'.e) && w'.e.serviced == w.e.serviced + w.e.numWaiting
              && w'.e.log.rounds == w.e.log.rounds + 36 * w.e.numWaiting
  {
    var w := Exec(Init(n), ls);
    Always(n, ls);
    TopOfLoop(w);
    EmptyWhole(w, i);
    GracefulRuns(Whole(w, i, CallStop), Shared(w.e, Flags(false, true)), 36 * w.e.numWaiting);
  }

  // ---------- stopping with people on board ----------

  /** A stop that takes its section with an honest `loads` leaves it honest, and with it the promise
      of EveryRunDrains, if and only if it finds nobody on board; otherwise `loads` counts whom it
      discarded in every later state of every continuation. */
  lemma StopLeaksExactlyWhenRidden(n: nat, ls: seq<Label>, i: nat)
    requires var w := Exec(Init(n), ls);
      i < |w.threads| && w.threads[i] == StopEnter && w.e.loads == |w.e.onboard|
    ensures var w := Exec(Init(n), ls);
            var v := Emptied(w, i);
      && (v.e.loads == |v.e.onboard| <==> w.e.onboard == [])
      && forall more :: var e := Exec(v, more).e;
           w.e.onboard != [] ==> e.loads >= |e.onboard| + |w.e.onboard| && e.loads > 0
  {
    var w := Exec(Init(n), ls);
    Always(n, ls);
    SectionFrame(w, i);
    SectionDecides(w, i);
    forall more
      ensures var e := Exec(Emptied(w, i), more).e; e.loads >= |e.onboard| + |w.e.onboard|
    {
      DiscardedCount(Emptied(w, i), more);
    }
  }

  lemma DiscardedCount(w: World, more: seq<Label>)
    requires Inv(w)
    ensures Exec(w, more).e.loads >= |Exec(w, more).e.onboard| + |w.e.log.discarded|
  {
    ExecKeeps(w, more);
    ExecExtends(w, more);
  }

  /** One human who waits for an empty cabin on its floor is on board after one iteration. */
  lemma LoneRiderBoards(x: Shared, p: Passenger)
    requires x.e.onboard == [] && x.e.loads == 0 && x.e.status == 0
    requires Queue(x.e) == [p] && Human(p) && p.start == x.e.floor && x.e.numWaiting != 0
    ensures Round(x).e.onboard == [p] && Round(x).e.loads == 1 && Round(x).flags == x.flags
  {
    var e1 := Alight(x.e);
    UnloadShape(x.e);
    assert Queue(e1) == [p];
    assert Board([p][1..], p.start, 1, 0) == Split([], [], 1, 0);
    assert Incoming(e1) == [p];
    LoadShape(e1);
    DepartOnward(x.(e := Serve(x.e)));
    DepartFlags(x.(e := Serve(x.e)));
  }

  ghost predicate Leaked(w: World) {
    w.e.onboard == [] && w.e.loads == 1
  }

  /** After a start and one request by a human on the ground floor. */
  lemma OneRequest(w: World, r: Request) returns (w': World)
    requires Reachable(1, w) && |w.threads| == 1 && w.threads[0].Ready? && w.flags == Flags(false, false)
    requires w.e == Setup() && r == Request(1, 2, 0)
    ensures Reachable(1, w') && w' == w.(e := Enqueue(w.e, 1, 2, 0), flags := Flags(true, false), threads := [Ready(0)])
  {
    var w1 := Whole(w, 0, CallStart);
    WholeIsUninterrupted(w, 0, CallStart);
    ReachableBy(1, w, Thread(0, CallStart), w1);
    w' := Whole(w1, 0, CallIssue(r));
    WholeIsUninterrupted(w1, 0, CallIssue(r));
    ReachableBy(1, w1, Thread(0, CallIssue(r)), w');
  }

  /** Some run discards a rider: one request, one iteration of the scheduler, and a stop. */
  lemma LeakHappens()
    ensures exists w :: Reachable(1, w) && Leaked(w)
  {
    hide SchedStep, Round, Step;
    assert Exec(Init(1), []) == Init(1);
    var w := OneRequest(Init(1), Request(1, 2, 0));
    var x := Shared(w.e, w.flags);
    LoneRiderBoards(x, Passenger(0, 0, 1, 2));
    var w1 := With(w, Round(x));
    ReachesRound(w);
    ReachableBy(1, w, Run, w1);
    var w2 := Whole(w1, 0, CallStop);
    WholeIsUninterrupted(w1, 0, CallStop);
    ReachableBy(1, w1, Thread(0, CallStop), w2);
    assert Leaked(w2);
  }
}
