/** What the proc file shows as the state of the elevator, over all runs. */
module Display {
  import opened Cabin
  import opened Sweep
  import opened Bookkeeping
  import opened AtomicMachine
  import opened Runs
  import opened Undisturbed

  /** After the pause for boarding, until the cabin moves or the round ends. */
  predicate DoorsDone(pc: Pc) {
    pc == TestLoads || pc == TestQueues || pc == TestStop || pc == Retiring || pc == Turning
  }

  predicate AtRest(m: Motion) {
    m == Idle || m == Offline
  }

  /** The direction shown is that of the next move. */
  predicate GoesTo(e: Elevator) {
    (e.motion == Up && e.next == e.floor + 1) || (e.motion == Down && e.next == e.floor - 1)
  }

  /** The direction shown is that of the last move. */
  ghost predicate CameFrom(e: Elevator) {
    && (e.motion == Up ==> e.log.moves > 0 && FloorAt(e.log.moves - 1) == e.floor - 1)
    && (e.motion == Down ==> e.log.moves > 0 && FloorAt(e.log.moves - 1) == e.floor + 1)
  }

  /** An elevator shown at rest is empty, but for the instant between boarding and the pause. */
  ghost predicate RestIsEmpty(w: World) {
    AtRest(w.e.motion) && (w.sched.pc == Pausing ==> !w.sched.loaded) ==> w.e.onboard == []
  }

  ghost predicate DoorsShown(w: World) {
    DoorsDone(w.sched.pc) && (w.sched.unloaded || w.sched.loaded) ==> w.e.motion == Motion.Loading
  }

  ghost predicate Shown(w: World) {
    RestIsEmpty(w) && DoorsShown(w) && (w.sched.pc == Moving || CameFrom(w.e))
  }

  lemma MoveShows(e: Elevator)
    requires OnSweep(e) && e.motion == Heading(e)
    ensures CameFrom(EndRound(Move(e)))
  {
    MoveKeepsSweep(e);
  }

  lemma RunShowsRest(w: World)
    requires EmptyWhenFound(w) && RestIsEmpty(w)
    ensures RestIsEmpty(SchedStep(w))
  {
    SchedFrame(w);
    if w.sched.pc == Boarding {
      LoadShape(w.e);
    } else if w.sched.pc == Unloading {
      UnloadShape(w.e);
    }
  }

  lemma RunShowsDoors(w: World)
    requires DoorsShown(w)
    ensures DoorsShown(SchedStep(w))
  {
  }

  lemma RunShowsDirection(w: World)
    requires OnSweep(w.e) && (w.sched.pc == Moving || CameFrom(w.e))
    ensures SchedStep(w).sched.pc == Moving || CameFrom(SchedStep(w).e)
  {
    if w.sched.pc == Moving { MoveShows(w.e); }
  }

  lemma RunShows(w: World)
    requires Inv(w) && Shown(w)
    ensures Shown(SchedStep(w))
  {
    RunShowsRest(w);
    RunShowsDoors(w);
    RunShowsDirection(w);
  }

  lemma CallShows(w: World, i: nat, call: Call)
    requires i < |w.threads| && Shown(w)
    ensures Shown(ThreadStep(w, i, call))
  {
    ThreadFrame(w, i, call);
  }

  lemma {:induction false} RunsShow(w: World, ls: seq<Label>)
    requires Inv(w) && Shown(w)
    ensures Shown(Exec(w, ls))
    decreases ls
  {
    if ls != [] {
      match ls[0] {
        case Run => RunShows(w);
        case Thread(i, call) => if i < |w.threads| { CallShows(w, i, call); }
      }
      StepKeeps(w, ls[0]);
      RunsShow(Step(w, ls[0]), ls[1..]);
    }
  }

  lemma AlwaysShown(n: nat, ls: seq<Label>)
    ensures Shown(Exec(Init(n), ls))
  {
    assert Shown(Init(n));
    InitInv(n);
    RunsShow(Init(n), ls);
  }

  /** In every run: idle or offline is shown only with nobody on board, but for the instant between
      boarding and the pause; loading whenever somebody got on or off at this stop and the doors have
      been held; and up or down as the cabin is about to move, or else as it last moved. */
  lemma DisplayIsHonest(n: nat, ls: seq<Label>)
    ensures var w := Exec(Init(n), ls);
      && (AtRest(w.e.motion) && (w.sched.pc == Pausing ==> !w.sched.loaded) ==> w.e.onboard == [])
      && (DoorsDone(w.sched.pc) && (w.sched.unloaded || w.sched.loaded) ==> w.e.motion == Motion.Loading)
      && (if w.sched.pc == Moving then GoesTo(w.e) else CameFrom(w.e))
  {
    AlwaysShown(n, ls);
  }

  // ---------- within one iteration ----------

  /** Since `v` somebody has got off or on. */
  predicate Served(v: World, w: World) {
    |w.e.log.delivered| > |v.e.log.delivered| || |w.e.log.boarded| > |v.e.log.boarded|
  }

  predicate BeforeUnloading(pc: Pc) {
    pc == TestWaiting || pc == TestOnboard || pc == Unloading || pc == Resting
  }

  predicate BeforeBoarding(pc: Pc) {
    BeforeUnloading(pc) || pc == Freeing || pc == Disinfecting || pc == TestRoom || pc == Boarding
  }

  /** `w` is in the iteration that began in `v`. */
  ghost predicate Within(v: World, w: World) {
    var l0, l, s := v.e.log, w.e.log, w.sched;
    && (s.unloaded <==> |l.delivered| > |l0.delivered|)
    && (s.loaded <==> |l.boarded| > |l0.boarded|)
    && (BeforeUnloading(s.pc) ==> |l.delivered| == |l0.delivered|)
    && (BeforeBoarding(s.pc) ==> |l.boarded| == |l0.boarded|)
    && l.moves == l0.moves
    && (s.pc != Moving ==> w.e.motion == if DoorsDone(s.pc) && Served(v, w) then Motion.Loading else v.e.motion)
  }

  ghost predicate Since(v: World, w: World) {
    v.e.log.rounds <= w.e.log.rounds && (v.e.log.rounds == w.e.log.rounds ==> Within(v, w))
  }

  lemma SectionWithin(v: World, w: World)
    requires Within(v, w) && (w.sched.pc == Unloading || w.sched.pc == Boarding)
    ensures Within(v, SchedStep(w))
  {
    if w.sched.pc == Unloading { UnloadShape(w.e); } else { LoadShape(w.e); }
  }

  lemma OtherWithin(v: World, w: World)
    requires Within(v, w) && w.sched.pc != Unloading && w.sched.pc != Boarding
    requires SchedStep(w).sched.pc != TestWaiting
    ensures Within(v, SchedStep(w))
  {
    hide Load, Unload, Outgoing, Incoming, Move;
  }

  lemma RunSince(v: World, w: World)
    requires Since(v, w)
    ensures Since(v, SchedStep(w))
  {
    hide SchedStep, Within;
    StepRounds(w);
    if v.e.log.rounds == w.e.log.rounds && SchedStep(w).sched.pc != TestWaiting {
      if w.sched.pc == Unloading || w.sched.pc == Boarding { SectionWithin(v, w); } else { OtherWithin(v, w); }
    }
  }

  lemma CallSince(v: World, w: World, i: nat, call: Call)
    requires i < |w.threads| && Since(v, w)
    ensures Since(v, ThreadStep(w, i, call))
  {
    ThreadFrame(w, i, call);
  }

  lemma {:induction false} RunsSince(v: World, w: World, ls: seq<Label>)
    requires Since(v, w)
    ensures Since(v, Exec(w, ls))
    decreases ls
  {
    hide SchedStep, ThreadStep, Since;
    if ls != [] {
      match ls[0] {
        case Run => RunSince(v, w);
        case Thread(i, call) => if i < |w.threads| { CallSince(v, w, i, call); }
      }
      RunsSince(v, Step(w, ls[0]), ls[1..]);
    }
  }

  /** `v` is at the head of the loop in some run, and `more` leads to a state of the same iteration. */
  ghost predicate SameIteration(n: nat, ls: seq<Label>, more: seq<Label>) {
    var v := Exec(Init(n), ls);
    v.sched.pc == TestWaiting && Exec(v, more).e.log.rounds == v.e.log.rounds
  }

  /** In every iteration of every run, whatever calls come in between: the two results the scheduler
      keeps say who got off or on in this iteration; from the pause until the cabin is about to move
      LOADING is shown if and only if anybody did; and otherwise the state shown at the head of the loop. */
  lemma DoorsOpenExactlyWhen(n: nat, ls: seq<Label>, more: seq<Label>)
    requires SameIteration(n, ls, more)
    ensures var v, w := Exec(Init(n), ls), Exec(Exec(Init(n), ls), more);
            var off := |w.e.log.delivered| > |v.e.log.delivered|;
            var on := |w.e.log.boarded| > |v.e.log.boarded|;
      && (w.sched.unloaded <==> off) && (w.sched.loaded <==> on)
      && (w.sched.pc != Moving ==>
            w.e.motion == if DoorsDone(w.sched.pc) && (off || on) then Motion.Loading else v.e.motion)
  {
    assert Since(Exec(Init(n), ls), Exec(Init(n), ls));
    RunsSince(Exec(Init(n), ls), Exec(Init(n), ls), more);
  }

  /** Every state of every run is in such an iteration. */
  lemma {:induction false} HeadOf(n: nat, ls: seq<Label>) returns (k: nat)
    ensures k <= |ls| && SameIteration(n, ls[..k], ls[k..])
    ensures Exec(Exec(Init(n), ls[..k]), ls[k..]) == Exec(Init(n), ls)
    decreases |ls|
  {
    hide SchedStep, ThreadStep;
    k := |ls|;
    assert ls[..k] == ls && ls[k..] == [];
    if Exec(Init(n), ls).sched.pc != TestWaiting {
      var j, l := |ls| - 1, ls[|ls| - 1];
      k := HeadOf(n, ls[..j]);
      assert ls == ls[..j] + [l] && ls[..j][..k] == ls[..k] && ls[k..] == ls[..j][k..] + [l];
      ExecSplit(Init(n), ls[..j], [l]);
      ExecSplit(Exec(Init(n), ls[..k]), ls[..j][k..], [l]);
      LastStep(Exec(Init(n), ls[..j]), l);
    }
  }

  lemma LastStep(w: World, l: Label)
    ensures Exec(w, [l]) == Step(w, l)
    ensures Step(w, l).sched.pc != TestWaiting ==> Step(w, l).e.log.rounds == w.e.log.rounds
  {
    hide SchedStep, ThreadStep;
    assert [l][1..] == [] && Exec(Step(w, l), []) == Step(w, l);
    match l
    case Run => StepRounds(w);
    case Thread(i, call) => if i < |w.threads| { ThreadFrame(w, i, call); }
  }

  /** What is shown when an iteration ends: the direction of the move if the cabin moved; offline after
      the shutdown of lines 397-398; with nothing to do idle or offline as `started` is set or clear; and
      otherwise, when the last passenger has been served, what was shown when the doors were closed. */
  lemma IterationEndShows(n: nat, ls: seq<Label>, more: seq<Label>)
    requires SameIteration(n, ls, more)
    requires SchedStep(Exec(Exec(Init(n), ls), more)).sched.pc == TestWaiting
    ensures var v, w := Exec(Init(n), ls), Exec(Exec(Init(n), ls), more);
            var e' := SchedStep(w).e;
      e'.motion ==
        if e'.log.moves > v.e.log.moves then (if FloorAt(v.e.log.moves) < e'.floor then Up else Down)
        else if w.sched.pc == Retiring then Offline
        else if w.sched.pc == Resting then (if w.flags.started then Idle else Offline)
        else if Served(v, w) then Motion.Loading
        else v.e.motion
  {
    var v, w := Exec(Init(n), ls), Exec(Exec(Init(n), ls), more);
    Always(n, ls);
    ExecKeeps(v, more);
    assert Since(v, v);
    RunsSince(v, v, more);
    EndShows(v, w);
  }

  lemma EndShows(v: World, w: World)
    requires Within(v, w) && OnSweep(v.e) && OnSweep(w.e) && SchedStep(w).sched.pc == TestWaiting
    ensures var e' := SchedStep(w).e;
      e'.motion ==
        if e'.log.moves > v.e.log.moves then (if FloorAt(v.e.log.moves) < e'.floor then Up else Down)
        else if w.sched.pc == Retiring then Offline
        else if w.sched.pc == Resting then (if w.flags.started then Idle else Offline)
        else if Served(v, w) then Motion.Loading
        else v.e.motion
  {
    if w.sched.pc == Moving { MoveKeepsSweep(w.e); }
  }
}
