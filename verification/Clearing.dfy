/** Whether the scheduler, left alone, will ever clear `deactiving` after a stop, wherever it is. */
module Clearing {
  import opened AtomicMachine
  import opened Runs
  import opened Undisturbed

  /** Inside the `if` of line 369: the test of line 395 may still come in this iteration. */
  predicate InBody(pc: Pc) {
    pc != TestWaiting && pc != TestOnboard && pc != Resting
  }

  /** Nobody was discarded, and somebody is left to serve, or the scheduler is in the middle of serving. */
  predicate CanClear(w: World) {
    w.e.log.discarded == [] && (w.e.numWaiting > 0 || w.e.onboard != [] || InBody(w.sched.pc))
  }

  ghost predicate Clearable(w: World) {
    w.flags.deactiving ==> CanClear(w)
  }

  /** Inside the body only moving, resting and the test of line 395 lead out of it. */
  lemma StepStaysInBody(w: World)
    requires InBody(w.sched.pc) && w.sched.pc != Moving && w.sched.pc != TestStop && w.sched.pc != Retiring
    ensures InBody(SchedStep(w).sched.pc)
  {
  }

  lemma StepKeepsOthers(w: World)
    ensures SchedStep(w).flags.deactiving ==> w.flags.deactiving && w.sched.pc != Retiring
    ensures w.flags.deactiving && w.sched.pc == TestStop ==> InBody(SchedStep(w).sched.pc)
    ensures !InBody(w.sched.pc) || w.sched.pc == Moving ==>
              SchedStep(w).e.numWaiting == w.e.numWaiting && SchedStep(w).e.onboard == w.e.onboard
  {
  }

  lemma StepStaysClearable(w: World)
    requires Inv(w) && Clearable(w)
    ensures Clearable(SchedStep(w))
  {
    hide SchedStep, AllOwned, StatusRight, Separated;
    StepLater(w);
    Honest(w);
    StepKeepsOthers(w);
    if InBody(w.sched.pc) && w.sched.pc != Moving && w.sched.pc != TestStop && w.sched.pc != Retiring {
      StepStaysInBody(w);
    }
  }

  lemma {:induction false} StaysClearable(w: World, k: nat)
    requires Inv(w) && Clearable(w)
    ensures Inv(Exec(w, Repeat(Run, k))) && Clearable(Exec(w, Repeat(Run, k)))
    decreases k
  {
    hide SchedStep, Exec, Inv;
    RepeatUnfolds(w, Run, k);
    if k > 0 {
      SchedKeeps(w);
      StepStaysClearable(w);
      StaysClearable(SchedStep(w), k - 1);
    }
  }

  lemma ReachesClearable(w: World, w': World)
    requires Inv(w) && Clearable(w) && Reaches(w, Run, w')
    ensures Inv(w') && Clearable(w')
  {
    var k: nat :| Exec(w, Repeat(Run, k)) == w';
    StaysClearable(w, k);
  }

  /** The scheduler never sets the flag; and without `CanClear` it does not clear it. */
  lemma StepHangs(w: World)
    requires Inv(w) && w.flags.deactiving && !CanClear(w)
    ensures SchedStep(w).flags.deactiving && !CanClear(SchedStep(w))
  {
    hide AllOwned, StatusRight, Separated;
    StepLater(w);
    Honest(w);
    SchedFrame(w);
  }

  lemma {:induction false} Hangs(w: World, k: nat)
    requires Inv(w) && w.flags.deactiving && !CanClear(w)
    ensures Exec(w, Repeat(Run, k)).flags.deactiving
    decreases k
  {
    hide SchedStep, Exec, Inv;
    RepeatUnfolds(w, Run, k);
    if k > 0 {
      SchedKeeps(w);
      StepHangs(w);
      Hangs(SchedStep(w), k - 1);
    }
  }

  /** Once the building is drained the flag is clear, so draining it clears the flag. */
  lemma Clears(w: World) returns (w': World)
    requires Inv(w) && w.flags.deactiving && CanClear(w)
    ensures Reaches(w, Run, w') && Inv(w') && !w'.flags.deactiving
    ensures w'.threads == w.threads && w'.flags.started == w.flags.started
    ensures w'.e.log.accepted == w.e.log.accepted && w'.sched.pc == TestWaiting
  {
    Honest(w);
    w' := DrainsFrom(w);
    ReachesClearable(w, w');
    ReachesLater(w, w');
  }

  lemma {:induction false} RunsLater(w: World, k: nat)
    requires Inv(w)
    ensures Later(w, Exec(w, Repeat(Run, k)))
    decreases k
  {
    RepeatUnfolds(w, Run, k);
    if k > 0 {
      SchedKeeps(w);
      StepLater(w);
      RunsLater(SchedStep(w), k - 1);
    }
  }

  lemma ReachesLater(w: World, w': World)
    requires Inv(w) && Reaches(w, Run, w')
    ensures Later(w, w')
  {
    var k: nat :| Exec(w, Repeat(Run, k)) == w';
    RunsLater(w, k);
  }

  /** The scheduler alone ever clears `deactiving` if and only if `CanClear` holds when it is left alone. */
  lemma ClearsExactlyWhen(w: World)
    requires Inv(w) && w.flags.deactiving
    ensures (exists k: nat :: !Exec(w, Repeat(Run, k)).flags.deactiving) <==> CanClear(w)
  {
    if CanClear(w) {
      var w' := Clears(w);
      var k: nat :| Exec(w, Repeat(Run, k)) == w';
    } else {
      forall k: nat
        ensures Exec(w, Repeat(Run, k)).flags.deactiving
      {
        Hangs(w, k);
      }
    }
  }
}
