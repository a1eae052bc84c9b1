/** What a stop leads to in the program with its mutex, however it is interleaved with the scheduler. */
module LockStops {
  import opened Passengers
  import opened Cabin
  import opened AtomicMachine
  import opened Runs
  import opened Drain
  import opened Undisturbed
  import opened Clearing
  import opened SystemCalls
  import opened Stopping
  import opened LockMachine
  import opened Refinement
  import opened Realisation
  import opened LockLiveness

  // ---------- from the lock to the return ----------

  /** Caller `i` has taken the mutex for a stop and has not returned. */
  predicate OnWayOut(w: LockedWorld, i: nat) {
    i < |w.callers| && (w.callers[i].StopMove? || w.callers[i].StopLeave?
                        || (w.callers[i].Plain? && w.callers[i].x.StopFree?))
  }

  /** A step of the scheduler, or of caller `i` on its way through a stop. */
  predicate LockEnds(w: LockedWorld, i: nat, l: Label) {
    l.Run? || (l.i == i && OnWayOut(w, i))
  }

  /** No other step comes in between: no call follows. */
  predicate LockUnwinds(w: LockedWorld, i: nat, ls: seq<Label>)
    decreases ls
  {
    ls == [] || (LockEnds(w, i, ls[0]) && LockUnwinds(LockStep(w, ls[0]), i, ls[1..]))
  }

  lemma {:induction false} RunsUnwind(w: LockedWorld, i: nat, k: nat)
    ensures LockUnwinds(w, i, Repeat(Run, k))
    decreases k
  {
    if k > 0 {
      assert Repeat(Run, k)[1..] == Repeat(Run, k - 1) && Repeat(Run, k)[0] == Run;
      RunsUnwind(LockStep(w, Run), i, k - 1);
    }
  }

  lemma {:induction false} UnwindsSplit(w: LockedWorld, i: nat, front: seq<Label>, back: seq<Label>)
    requires LockUnwinds(w, i, front) && LockUnwinds(LockExec(w, front), i, back)
    ensures LockUnwinds(w, i, front + back)
    decreases front
  {
    if front == [] {
      assert [] + back == back;
    } else {
      assert (front + back)[1..] == front[1..] + back && (front + back)[0] == front[0];
      UnwindsSplit(LockStep(w, front[0]), i, front[1..], back);
    }
  }

  /** The stop of caller `i` has taken effect: everybody is off the list, though it may hold the mutex. */
  ghost predicate Effective(w: LockedWorld, i: nat) {
    LockInv(w) && Inv(Abs(w)) && HandedOver(w, i)
  }

  predicate HandedOver(w: LockedWorld, i: nat) {
    w.mutex.HeldBy? ==> w.mutex == HeldBy(i) && i < |w.callers|
                        && (w.callers[i].StopLeave? || (w.callers[i].StopMove? && w.e.onboard == []))
  }

  /** It holds the mutex with the flag set, and somebody is still to be taken off. */
  ghost predicate Emptying(w: LockedWorld, i: nat) {
    && LockInv(w) && Inv(Abs(w))
    && w.mutex == HeldBy(i) && Taking(w, i) && w.flags.deactiving
  }

  lemma AbsStep(w: LockedWorld, l: Label)
    requires LockInv(w) && Inv(Abs(w))
    ensures var w' := LockStep(w, l);
      && LockInv(w') && Inv(Abs(w')) && (Abs(w') == Abs(w) || Abs(w') == Step(Abs(w), l))
  {
    StepSimulates(w, l);
    StepKeeps(Abs(w), l);
  }

  lemma HandsOver(w: LockedWorld, i: nat, call: Call)
    requires Exclusive(w) && HandedOver(w, i) && OnWayOut(w, i)
    ensures HandedOver(LockStep(w, Thread(i, call)), i)
  {
  }

  /** One step of the stop is none of the large steps, or frees a node. */
  lemma OnWayOutStep(w: LockedWorld, i: nat, call: Call)
    requires LockInv(w) && HandedOver(w, i) && OnWayOut(w, i)
    ensures if AbsLabels(w, Thread(i, call)) == [] then Abs(LockStep(w, Thread(i, call))) == Abs(w)
            else Ends(Abs(w), i, Thread(i, call))
  {
    StepSimulates(w, Thread(i, call));
    AbsThread(w, i);
  }

  /** The scheduler never hands the mutex to a caller. */
  lemma RunTakesNone(w: LockedWorld)
    ensures LockStep(w, Run).mutex.HeldBy? ==> w.mutex.HeldBy?
  {
  }

  lemma RunHandsOver(w: LockedWorld, i: nat)
    requires Exclusive(w) && HandedOver(w, i)
    ensures HandedOver(LockStep(w, Run), i)
  {
    RunTakesNone(w);
    if w.mutex.HeldBy? { RunKeepsCabin(w); }
  }

  lemma EffectiveStep(w: LockedWorld, i: nat, l: Label)
    requires Effective(w, i) && LockEnds(w, i, l)
    ensures Effective(LockStep(w, l), i) && Follows(Abs(w), Abs(LockStep(w, l)))
  {
    AbsStep(w, l);
    if l.Run? {
      RunHandsOver(w, i);
    } else {
      HandsOver(w, i, l.call);
      OnWayOutStep(w, i, l.call);
    }
    if Abs(LockStep(w, l)) != Abs(w) { EndsFollow(Abs(w), i, l); }
  }

  lemma {:induction false} EffectiveFollows(w: LockedWorld, i: nat, ls: seq<Label>)
    requires Effective(w, i) && LockUnwinds(w, i, ls)
    ensures Effective(LockExec(w, ls), i) && Follows(Abs(w), Abs(LockExec(w, ls)))
    decreases ls
  {
    if ls != [] {
      EffectiveStep(w, i, ls[0]);
      EffectiveFollows(LockStep(w, ls[0]), i, ls[1..]);
    }
  }

  /** While the stop takes people off, the scheduler cannot get at the flag. */
  lemma RunStaysEmptying(w: LockedWorld, i: nat)
    requires Emptying(w, i)
    ensures Emptying(LockStep(w, Run), i)
  {
    AbsStep(w, Run);
    RunKeepsCabin(w);
    RunKeepsFlag(w, i);
  }

  lemma TakesOneOff(w: LockedWorld, i: nat, call: Call)
    requires LockInv(w) && w.mutex == HeldBy(i) && Taking(w, i)
    ensures var w' := LockStep(w, Thread(i, call));
      && w'.mutex == w.mutex && w'.flags == w.flags && |w'.callers| == |w.callers| && w'.callers[i].StopMove?
      && (w'.e.onboard == [] ==> w'.e.log.discarded != [])
  {
  }

  /** With the last one off, the flag will never be cleared. */
  lemma LastOffHangs(w: LockedWorld, i: nat)
    requires LockInv(w) && Inv(Abs(w)) && w.mutex == HeldBy(i) && i < |w.callers| && w.callers[i].StopMove?
    requires w.e.onboard == [] && w.e.log.discarded != [] && w.flags.deactiving
    ensures Effective(w, i) && Hung(Abs(w))
  {
  }

  lemma MoveStaysEmptying(w: LockedWorld, i: nat, call: Call)
    requires Emptying(w, i)
    ensures var w' := LockStep(w, Thread(i, call)); Emptying(w', i) || (Effective(w', i) && Hung(Abs(w')))
  {
    var w' := LockStep(w, Thread(i, call));
    AbsStep(w, Thread(i, call));
    TakesOneOff(w, i, call);
    if w'.e.onboard == [] { LastOffHangs(w', i); }
  }

  lemma EmptyingStep(w: LockedWorld, i: nat, l: Label)
    requires Emptying(w, i) && LockEnds(w, i, l)
    ensures var w' := LockStep(w, l); Emptying(w', i) || (Effective(w', i) && Hung(Abs(w')))
  {
    if l.Run? { RunStaysEmptying(w, i); } else { MoveStaysEmptying(w, i, l.call); }
  }

  lemma {:induction false} EmptyingHangs(w: LockedWorld, i: nat, ls: seq<Label>)
    requires Emptying(w, i) && LockUnwinds(w, i, ls)
    ensures var w' := LockExec(w, ls); Emptying(w', i) || (Effective(w', i) && Hung(Abs(w')))
    decreases ls
  {
    if ls != [] {
      var w1 := LockStep(w, ls[0]);
      EmptyingStep(w, i, ls[0]);
      if Emptying(w1, i) {
        EmptyingHangs(w1, i, ls[1..]);
      } else {
        EffectiveFollows(w1, i, ls[1..]);
      }
    }
  }

  // ---------- the mutex decides ----------

  /** The stop is the next to take the mutex, which is free. */
  ghost predicate TakesMutex(w: LockedWorld, i: nat) {
    i < |w.callers| && w.mutex == Unlocked && w.callers[i] == Plain(StopEnter)
  }

  lemma TakingFrame(w: LockedWorld, i: nat)
    requires TakesMutex(w, i)
    ensures var w1 := LockStep(w, Thread(i, CallStop));
      && w1.e == w.e && w1.flags == w.flags && w1.mutex == HeldBy(i) && |w1.callers| == |w.callers|
      && w1.callers[i] == StopMove([])
  {
    hide SchedStep, RunStep;
  }

  /** With nobody on board the stop takes effect at once. */
  lemma TakesEffect(w: LockedWorld, i: nat)
    requires LockInv(w) && Inv(Abs(w)) && TakesMutex(w, i) && w.e.onboard == []
    ensures var w1 := LockStep(w, Thread(i, CallStop));
      && i < |Abs(w).threads| && Abs(w).threads[i] == StopEnter && Effective(w1, i)
      && Abs(w1) == Emptied(Abs(w), i)
  {
    hide SchedStep, RunStep, Finish, LockStep, Inv;
    TakingFrame(w, i);
    AbsThread(w, i);
    AbsStep(w, Thread(i, CallStop));
    StepSimulates(w, Thread(i, CallStop));
  }

  lemma FreeAbs(w: LockedWorld)
    requires LockInv(w) && w.mutex == Unlocked
    ensures Abs(w).e == w.e && Abs(w).sched == w.sched && Abs(w).flags == w.flags
  {
    hide SchedStep, RunStep, Finish;
  }

  lemma LoadsCountRiders(w: World)
    requires Inv(w)
    ensures w.e.loads == 0 ==> w.e.onboard == [] && w.e.log.discarded == []
  {
  }

  /** Whether the flag can be cleared is settled when the stop takes the mutex. */
  lemma Settles(w: LockedWorld, i: nat, ls: seq<Label>)
    requires LockInv(w) && Inv(Abs(w)) && TakesMutex(w, i) && w.flags.deactiving
    requires LockUnwinds(LockStep(w, Thread(i, CallStop)), i, ls)
    ensures var w2 := LockExec(LockStep(w, Thread(i, CallStop)), ls);
      if Completes(Abs(w)) then Effective(w2, i) && Clearable(Abs(w2))
      else Emptying(w2, i) || (Effective(w2, i) && Hung(Abs(w2)))
  {
    hide SchedStep, LockStep, Abs, LockExec, InBody, LockUnwinds, LockInv, Inv;
    var w1 := LockStep(w, Thread(i, CallStop));
    FreeAbs(w);
    TakingFrame(w, i);
    AbsStep(w, Thread(i, CallStop));
    if w.e.onboard == [] {
      TakesEffect(w, i);
      SectionDecides(Abs(w), i);
      SectionFrame(Abs(w), i);
      EffectiveFollows(w1, i, ls);
    } else {
      LoadsCountRiders(Abs(w));
      EmptyingHangs(w1, i, ls);
    }
  }

  /** The stop goes on until it has given the mutex back. */
  lemma {:induction false} StopLets(w: LockedWorld, i: nat) returns (ls: seq<Label>)
    requires Effective(w, i)
    ensures LockUnwinds(w, i, ls) && !LockExec(w, ls).mutex.HeldBy?
    decreases if w.mutex.HeldBy? then HoldLeft(w.e, w.callers[i]) else 0
  {
    hide SchedStep, Inv, Abs, LockInv, Follows, RunStep;
    if w.mutex.HeldBy? {
      var l := Thread(i, CallStop);
      EffectiveStep(w, i, l);
      HolderMoves(w, i);
      var rest := StopLets(LockStep(w, l), i);
      ls := [l] + rest;
      assert ls[1..] == rest;
    } else {
      ls := [];
    }
  }

  lemma ClearsFreely(w: LockedWorld, i: nat) returns (ls: seq<Label>)
    requires Effective(w, i) && Clearable(Abs(w)) && !w.mutex.HeldBy?
    ensures LockUnwinds(w, i, ls) && !LockExec(w, ls).flags.deactiving
  {
    if w.flags.deactiving {
      var v := Abs(w);
      var v' := Clears(v);
      var j: nat :| Exec(v, Repeat(Run, j)) == v';
      SchedRunRealised(v, j);
      SchedulerFrees(w);
      LeadsTrans(w, Run, Embed(v), Embed(v'));
      var k: nat :| LockExec(w, Repeat(Run, k)) == Embed(v');
      RunsUnwind(w, i, k);
      ls := Repeat(Run, k);
    } else {
      ls := [];
    }
  }

  lemma ClearsInTheEnd(w: LockedWorld, i: nat) returns (ls: seq<Label>)
    requires Effective(w, i) && Clearable(Abs(w))
    ensures LockUnwinds(w, i, ls) && !LockExec(w, ls).flags.deactiving
  {
    var front := StopLets(w, i);
    EffectiveFollows(w, i, front);
    var back := ClearsFreely(LockExec(w, front), i);
    UnwindsSplit(w, i, front, back);
    LockSplit(w, front, back);
    ls := front + back;
  }

  lemma NeverCleared(w: LockedWorld, i: nat, ls: seq<Label>)
    requires Emptying(w, i) || (Effective(w, i) && Hung(Abs(w)))
    requires LockUnwinds(w, i, ls)
    ensures LockExec(w, ls).flags.deactiving
  {
    if Emptying(w, i) {
      EmptyingHangs(w, i, ls);
    } else {
      EffectiveFollows(w, i, ls);
    }
  }

  /** A stop has set its flags, the scheduler may have gone on meanwhile, and now the stop takes the
      mutex; no call follows. At any time from then on, in every interleaving of the stop's remaining
      steps with the scheduler's: some continuation sees `deactiving` clear if and only if the mutex
      was taken with `loads` zero, and either somebody waiting or the scheduler past the test at the
      head of its loop. */
  lemma LockedStopCompletesExactlyWhen(n: nat, ls: seq<Label>, i: nat, more: seq<Label>)
    requires var w := LockExec(Start(n), ls);
      && i < |w.callers| && w.mutex == Unlocked && w.callers[i] == Plain(StopEnter) && w.flags.deactiving
      && LockUnwinds(LockStep(w, Thread(i, CallStop)), i, more)
    ensures var w := LockExec(Start(n), ls);
      var w2 := LockExec(LockStep(w, Thread(i, CallStop)), more);
      (exists rest :: LockUnwinds(w2, i, rest) && !LockExec(w2, rest).flags.deactiving)
      <==> w.e.loads == 0 && (w.e.numWaiting > 0 || InBody(w.sched.pc))
  {
    var w := LockExec(Start(n), ls);
    LockAlways(n, ls);
    Settles(w, i, more);
    FreeAbs(w);
    var w2 := LockExec(LockStep(w, Thread(i, CallStop)), more);
    if Completes(Abs(w)) {
      var rest := ClearsInTheEnd(w2, i);
    } else {
      forall rest | LockUnwinds(w2, i, rest)
        ensures LockExec(w2, rest).flags.deactiving
      {
        NeverCleared(w2, i, rest);
      }
    }
  }

  // ---------- whom a stop lets be served ----------

  /** The scheduler, left alone in `v`, got to `w'`: whoever waited when the stop took the mutex in `w`
      was served, and the elevator shows that it is at rest. */
  ghost predicate LockShutDown(w: LockedWorld, v: LockedWorld, w': LockedWorld) {
    && w'.mutex == Unlocked && w'.sched.pc == TestWaiting && Quiet(w'.e)
    && w'.e.motion == (if w.flags.started then Idle else Offline)
    && w'.flags == Flags(w.flags.started, w.flags.deactiving && !(w.e.numWaiting > 0 || InBody(w.sched.pc)))
    && w'.e.serviced == w.e.serviced + w.e.numWaiting
    && w'.e.log.rounds <= v.e.log.rounds + 2 + 18 * (2 * v.e.numWaiting + v.e.loads)
  }

  lemma StoppedUnderLock(w: LockedWorld, i: nat, more: seq<Label>)
    requires LockInv(w) && Inv(Abs(w)) && TakesMutex(w, i) && w.e.loads == 0
    requires LockUnwinds(LockStep(w, Thread(i, CallStop)), i, more)
    ensures var v := LockExec(LockStep(w, Thread(i, CallStop)), more);
            Effective(v, i) && Stopped(Abs(w), w.flags, Abs(v))
  {
    FreeAbs(w);
    LoadsCountRiders(Abs(w));
    TakesEffect(w, i);
    StoppedAt(Abs(w), i);
    EffectiveFollows(LockStep(w, Thread(i, CallStop)), i, more);
  }

  lemma ShutsDownFreely(w: LockedWorld, i: nat, v: LockedWorld) returns (w': LockedWorld)
    requires LockInv(w) && Inv(Abs(w)) && w.mutex == Unlocked && w.inside == Out && w.e.loads == 0
    requires Effective(v, i) && Stopped(Abs(w), w.flags, Abs(v)) && !v.mutex.HeldBy?
    ensures Leads(v, Run, w') && LockShutDown(w, v, w')
  {
    var u := ShutsDown(Abs(w), w.flags, Abs(v));
    var j: nat :| Exec(Abs(v), Repeat(Run, j)) == u;
    SchedRunRealised(Abs(v), j);
    SchedulerFrees(v);
    AbsServes(v);
    w' := Embed(u);
    LeadsTrans(v, Run, Embed(Abs(v)), w');
  }

  /** A stop takes the mutex and finds `loads` zero, and no call follows. Whenever it has given the
      mutex back, the scheduler alone serves whoever waited when it took it, within 36 iterations for
      each still waiting and 18 for each on board, and two more show the elevator at rest; then
      `deactiving` is as LockedStopCompletesExactlyWhen says. */
  lemma LockedStopAnywhere(n: nat, ls: seq<Label>, i: nat, more: seq<Label>)
    requires var w := LockExec(Start(n), ls);
      && i < |w.callers| && w.mutex == Unlocked && w.callers[i] == Plain(StopEnter) && w.e.loads == 0
      && LockUnwinds(LockStep(w, Thread(i, CallStop)), i, more)
      && !LockExec(LockStep(w, Thread(i, CallStop)), more).mutex.HeldBy?
    ensures var w := LockExec(Start(n), ls);
            var v := LockExec(LockStep(w, Thread(i, CallStop)), more);
            exists k: nat :: LockShutDown(w, v, LockExec(v, Repeat(Run, k)))
  {
    var w := LockExec(Start(n), ls);
    LockAlways(n, ls);
    StoppedUnderLock(w, i, more);
    var v := LockExec(LockStep(w, Thread(i, CallStop)), more);
    var w' := ShutsDownFreely(w, i, v);
    var k: nat :| LockExec(v, Repeat(Run, k)) == w';
  }

  // ---------- a stop that the scheduler overtakes ----------

  /** A stop is called while `p` waits and nobody is on board. */
  ghost predicate Called(w: LockedWorld, p: Passenger) {
    && w.callers == [Plain(Ready(0))] && w.mutex == Unlocked && w.flags == Flags(true, false)
    && w.sched.pc == TestWaiting && w.e.loads == 0 && w.e.numWaiting == 1 && p in Flat(w.e.waiting)
  }

  /** It has set its flags, and waits for the mutex. */
  ghost predicate FlagsSet(w: LockedWorld, p: Passenger) {
    w.callers == [Plain(StopEnter)] && w.flags == Flags(false, true) && p in Flat(w.e.waiting)
  }

  /** The scheduler has taken `p` on board meanwhile. */
  ghost predicate Overtaken(w: LockedWorld, p: Passenger) {
    w.callers == [Plain(StopEnter)] && w.mutex == Unlocked && w.flags == Flags(false, true) && w.e.onboard == [p]
  }

  /** The stop has returned 0 and discarded `p`, and the scheduler alone never clears the flag. */
  ghost predicate HangsForGood(w: LockedWorld, p: Passenger) {
    && w.callers == [Plain(Ready(0))] && p in w.e.log.discarded
    && forall k: nat :: LockExec(w, Repeat(Run, k)).flags.deactiving
  }

  ghost predicate OvertakenStory(w1: LockedWorld, w2: LockedWorld, w3: LockedWorld, w4: LockedWorld, p: Passenger) {
    && Called(w1, p)
    && Leads(w1, Thread(0, CallStop), w2) && FlagsSet(w2, p)
    && Leads(w2, Run, w3) && Overtaken(w3, p)
    && Leads(w3, Thread(0, CallStop), w4) && HangsForGood(w4, p)
  }

  /** A start and one request by a human on the ground floor. */
  lemma OneWaits() returns (v: World, p: Passenger)
    ensures Arrives(1, Embed(v)) && p == Passenger(0, 0, 1, 2)
    ensures v == World(Enqueue(Setup(), 1, 2, 0), Flags(true, false), FRESH, [Ready(0)])
  {
    var r, v0: World := Request(1, 2, 0), Init(1);
    p := Passenger(0, 0, 1, 2);
    ArrivesFirst(1);
    assert v0.threads == [Ready(0)] && v0.threads[0 := Ready(0)] == v0.threads;
    var v1: World := v0.(flags := Flags(true, false));
    ArrivesWhole(1, v0, 0, CallStart);
    ArrivesWhole(1, v1, 0, CallIssue(r));
    v := v1.(e := Enqueue(v1.e, 1, 2, 0));
  }

  lemma IsCalled(v: World, p: Passenger)
    requires p == Passenger(0, 0, 1, 2)
    requires v == World(Enqueue(Setup(), 1, 2, 0), Flags(true, false), FRESH, [Ready(0)])
    ensures Called(Embed(v), p) && Queue(v.e) == [p]
  {
    hide Flat, SchedStep, LockStep;
    assert v.e.waiting[0] == [p] && p in v.e.waiting[0];
    FlatMember(v.e.waiting, p);
  }

  /** One iteration of the scheduler between the flags of a stop and its section. */
  lemma Overtakes(v: World, p: Passenger) returns (v': World)
    requires v.sched == FRESH && v.threads == [StopEnter] && v.flags == Flags(false, true)
    requires v.e.onboard == [] && v.e.loads == 0 && v.e.status == 0 && v.e.numWaiting != 0
    requires Queue(v.e) == [p] && Human(p) && p.start == v.e.floor
    ensures Leads(Embed(v), Run, Embed(v')) && Reaches(v, Run, v')
    ensures v'.threads == v.threads && v'.flags == v.flags && v'.e.onboard == [p] && v'.sched == FRESH
  {
    var x := Shared(v.e, v.flags);
    LoneRiderBoards(x, p);
    ReachesRound(v);
    v' := v.(e := Round(x).e, flags := Round(x).flags, sched := FRESH);
    var k: nat :| Exec(v, Repeat(Run, k)) == v';
    SchedRunRealised(v, k);
  }

  /** The rest of the stop, from the mutex to its return. */
  lemma StopReturnsFrom(v: World, i: nat) returns (v1: World, v': World)
    requires Inv(v) && i < |v.threads| && v.threads[i] == StopEnter
    ensures v1 == Emptied(v, i) && Leads(Embed(v), Thread(i, CallStop), Embed(v')) && Inv(v')
    ensures v'.e == Free(v1.e, v.e.onboard) && v'.flags == v1.flags && v'.sched == v1.sched
    ensures v'.threads == v.threads[i := Ready(0)]
  {
    hide SchedStep, LockStep, Embed, LockExec, Exec, Inv, Step, Outcome;
    var l := Thread(i, CallStop);
    v1 := Emptied(v, i);
    SectionFrame(v, i);
    StepKeeps(v, l);
    StopRealised(v, i, CallStop);
    v' := Resume(WithElevator(v1, Free(v1.e, v.e.onboard)), i, Ready(0));
    FreesRealised(v1, i, CallStop);
    LeadsTrans(Embed(v), l, Embed(v1), Embed(v'));
    FreesThreadBin(v1, i, CallStop);
    ReachesKeeps(v1, l, v');
  }

  lemma ReachesKeeps(v: World, l: Label, v': World)
    requires Inv(v) && Reaches(v, l, v')
    ensures Inv(v')
  {
    var k: nat :| Exec(v, Repeat(l, k)) == v';
    ExecKeeps(v, Repeat(l, k));
  }

  lemma DiscardsRider(v: World, p: Passenger) returns (v': World)
    requires Inv(v) && v.threads == [StopEnter] && v.flags == Flags(false, true) && v.e.onboard == [p]
    ensures Leads(Embed(v), Thread(0, CallStop), Embed(v')) && Inv(v') && v'.threads == [Ready(0)]
    ensures p in v'.e.log.discarded && Hung(v')
  {
    hide SchedStep, LockStep, Embed, LockExec, Exec, Step, Inv;
    var v1;
    v1, v' := StopReturnsFrom(v, 0);
    SectionFrame(v, 0);
    assert v1.e.log.discarded == v.e.log.discarded + [p] && p in v1.e.log.discarded;
  }

  lemma HungHangs(v: World, p: Passenger)
    requires Inv(v) && v.threads == [Ready(0)] && p in v.e.log.discarded && Hung(v)
    ensures HangsForGood(Embed(v), p)
  {
    AbsEmbed(v);
    assert Effective(Embed(v), 0);
    forall k: nat
      ensures LockExec(Embed(v), Repeat(Run, k)).flags.deactiving
    {
      RunsUnwind(Embed(v), 0, k);
      NeverCleared(Embed(v), 0, Repeat(Run, k));
    }
  }

  /** The state in which a stop is called does not decide: some run calls it with `loads` zero and
      somebody waiting, the scheduler picks that person up before the stop gets the mutex, and the stop
      discards them and hangs. */
  lemma OvertakenStopHangs()
    ensures exists w1, w2, w3, w4, p :: Arrives(1, w1) && OvertakenStory(w1, w2, w3, w4, p)
  {
    var v1, p := OneWaits();
    var v2 := Resume(v1.(flags := Flags(false, true)), 0, StopEnter);
    SetsFlags(v1, v2, p);
    ArrivedInv(1, v1);
    var v3 := Overtakes(v2, p);
    InvOvertaken(v1, v2, v3);
    var v4 := DiscardsRider(v3, p);
    HungHangs(v4, p);
    assert Overtaken(Embed(v3), p);
    assert OvertakenStory(Embed(v1), Embed(v2), Embed(v3), Embed(v4), p);
  }

  lemma SetsFlags(v1: World, v2: World, p: Passenger)
    requires p == Passenger(0, 0, 1, 2)
    requires v1 == World(Enqueue(Setup(), 1, 2, 0), Flags(true, false), FRESH, [Ready(0)])
    requires v2 == v1.(flags := Flags(false, true), threads := [StopEnter])
    ensures Called(Embed(v1), p) && Leads(Embed(v1), Thread(0, CallStop), Embed(v2)) && FlagsSet(Embed(v2), p)
    ensures Queue(v2.e) == [p]
  {
    IsCalled(v1, p);
    StopFlagsRealised(v1, 0);
  }

  lemma InvOvertaken(v1: World, v2: World, v3: World)
    requires Inv(v1) && v1.threads == [Ready(0)] && Reaches(v2, Run, v3)
    requires v2 == v1.(flags := Flags(false, true), threads := [StopEnter])
    ensures Inv(v3)
  {
    assert Bins(v2.threads) == Bins(v1.threads);
    var k: nat :| Exec(v2, Repeat(Run, k)) == v3;
    ExecKeeps(v2, Repeat(Run, k));
  }
}
