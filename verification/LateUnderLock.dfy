/** Exactly when a stopped elevator can still queue a passenger, wherever every thread is. */
module LateUnderLock {
  import opened Cabin
  import opened Bookkeeping
  import opened AtomicMachine
  import opened Runs
  import opened Undisturbed
  import opened Clearing
  import opened LateRequests
  import opened LockMachine
  import opened Refinement
  import opened LockRuns
  import opened Realisation
  import opened LockLiveness
  import opened LockRequests

  predicate Inserting(x: Caller) {
    x.IssueAdd? || x.IssueFloor? || x.IssueTotal?
  }

  predicate Waits(x: Caller) {
    x.Plain? && x.x.IssueEnter?
  }

  /** The scheduler will clear `deactiving` before it next needs the mutex. */
  predicate ClearsFirst(w: LockedWorld) {
    || w.sched.pc == TestStop || w.sched.pc == Retiring
    || (w.sched.pc == TestQueues && w.e.numWaiting == 0)
    || ((w.sched.pc == Pausing || w.sched.pc == TestLoads) && w.e.loads == 0 && w.e.numWaiting == 0)
  }

  /** A stop is inside its section and has not yet taken everybody off. */
  ghost predicate StopTaking(w: LockedWorld) {
    w.e.onboard != [] && exists j :: 0 <= j < |w.callers| && w.callers[j].StopMove?
  }

  /** A request is past its test of `deactiving`; or at that test, with the flag clear or about to be;
      or waiting for the mutex, and the flag is clear or will be. */
  ghost predicate CanStillQueue(w: LockedWorld) {
    || (exists i :: 0 <= i < |w.callers| && Inserting(w.callers[i]))
    || (exists i :: 0 <= i < |w.callers| && w.callers[i].IssueTest? && (w.flags.deactiving ==> ClearsFirst(w)))
    || (exists i :: 0 <= i < |w.callers| && Waits(w.callers[i])
                    && (w.flags.deactiving ==> CanClear(Abs(w)) && !StopTaking(w)))
  }

  ghost predicate NobodyStarts(w: LockedWorld) {
    forall i :: 0 <= i < |w.callers| && w.callers[i].Plain?
      ==> !w.callers[i].x.StartSetStarted? && !w.callers[i].x.StartClearStop?
  }

  lemma AbsNoStarter(w: LockedWorld)
    requires NobodyStarts(w)
    ensures NoStarter(Abs(w))
  {
    forall i | 0 <= i < |Abs(w).threads|
      ensures !Abs(w).threads[i].StartSetStarted? && !Abs(w).threads[i].StartClearStop?
    {
      AbsThread(w, i);
    }
  }

  // ---------- only if ----------

  /** The flag is set, and the only request is about to read it, before the scheduler can clear it. */
  ghost predicate AboutToRefuse(w: LockedWorld, i: nat) {
    && i < |w.callers| && w.mutex == HeldBy(i) && w.callers[i].IssueTest?
    && w.flags == Flags(false, true) && !ClearsFirst(w) && NobodyStarts(w)
    && forall j :: 0 <= j < |w.callers| ==> !Waits(w.callers[j])
  }

  /** The flag is set, and a stop is about to discard somebody. */
  ghost predicate AboutToDiscard(w: LockedWorld, i: nat) {
    && i < |w.callers| && w.mutex == HeldBy(i) && w.callers[i].StopMove? && w.e.onboard != []
    && w.flags == Flags(false, true) && NobodyStarts(w)
  }

  /** The large steps show that nobody can be queued. */
  ghost predicate Closed(w: LockedWorld) {
    && !w.flags.started && NobodyStarts(w) && !SomePastTest(Abs(w))
    && (SomePastGate(Abs(w)) ==> w.flags.deactiving && !CanClear(Abs(w)))
  }

  /** No step outside the sections brings the scheduler there sooner. */
  lemma StaysAway(v: World)
    requires v.flags.deactiving && v.sched.pc != Unloading && v.sched.pc != Boarding
    requires !ClearsFirst(Locked(v.e, v.flags, v.sched, Out, Unlocked, []))
    ensures var v' := SchedStep(v);
      && v'.flags == v.flags && !ClearsFirst(Locked(v'.e, v'.flags, v'.sched, Out, Unlocked, []))
      && v'.e.log.accepted == v.e.log.accepted
  {
    hide Load, Unload, Outgoing, Incoming;
  }

  lemma RunStaysRefusing(w: LockedWorld, i: nat)
    requires LockInv(w) && AboutToRefuse(w, i)
    ensures AboutToRefuse(LockStep(w, Run), i) && LockStep(w, Run).e.log.accepted == w.e.log.accepted
  {
    hide Finish, SchedStep, Halfway;
    assert w.inside == Out;
    if w.sched.pc != Unloading && w.sched.pc != Boarding { StaysAway(World(w.e, w.flags, w.sched, [])); }
  }

  lemma OthersStay(w: LockedWorld, i: nat, j: nat, call: Call)
    requires LockInv(w) && i < |w.callers| && j < |w.callers| && i != j && w.mutex == HeldBy(i)
    requires w.flags == Flags(false, true) && NobodyStarts(w) && !call.CallStart?
    ensures var w' := LockStep(w, Thread(j, call));
      && w'.flags == w.flags && w'.sched == w.sched && w'.mutex == w.mutex && NobodyStarts(w')
      && w'.callers == w.callers[j := w'.callers[j]] && w'.callers[j].Plain?
      && (Waits(w'.callers[j]) ==> Waits(w.callers[j]))
      && w'.e.log.accepted == w.e.log.accepted && w'.e.onboard == w.e.onboard
      && w'.e.loads == w.e.loads && w'.e.numWaiting == w.e.numWaiting
  {
    hide SchedStep, RunStep;
    assert w.callers[j].Plain?;
  }

  lemma RefusalCloses(w: LockedWorld, i: nat, call: Call)
    requires LockInv(w) && AboutToRefuse(w, i)
    ensures var w' := LockStep(w, Thread(i, call));
            Closed(w') && w'.e.log.accepted == w.e.log.accepted
  {
    var w' := LockStep(w, Thread(i, call));
    assert w'.callers == w.callers[i := IssueLeave];
    forall j | 0 <= j < |w'.callers|
      ensures !Abs(w').threads[j].IssueEnter? && !Abs(w').threads[j].IssueCommit?
    {
      AbsThread(w', j);
      assert j != i ==> w.callers[j].Plain?;
    }
  }

  lemma RunStaysDiscarding(w: LockedWorld, i: nat)
    requires LockInv(w) && Inv(Abs(w)) && AboutToDiscard(w, i)
    ensures AboutToDiscard(LockStep(w, Run), i) && LockStep(w, Run).e.log.accepted == w.e.log.accepted
  {
    hide LockStep, Abs, CoreInv;
    RunKeepsCabin(w);
    RunKeepsFlag(w, i);
  }

  lemma MoveDiscards(w: LockedWorld, i: nat, call: Call)
    requires LockInv(w) && AboutToDiscard(w, i)
    ensures var w' := LockStep(w, Thread(i, call));
      && (AboutToDiscard(w', i) || Closed(w')) && w'.e.log.accepted == w.e.log.accepted
  {
    var w' := LockStep(w, Thread(i, call));
    assert w'.callers == w.callers[i := w'.callers[i]];
    if w'.e.onboard == [] {
      assert Abs(w').e == w'.e && w'.e.log.discarded != [];
      forall j | 0 <= j < |w'.callers|
        ensures !Abs(w').threads[j].IssueCommit?
      {
        AbsThread(w', j);
        assert j != i ==> w.callers[j].Plain?;
      }
    }
  }

  lemma ClosedForGood(w: LockedWorld, more: seq<Label>)
    requires LockInv(w) && Inv(Abs(w)) && Closed(w) && NoStartCalls(more)
    ensures LockExec(w, more).e.log.accepted == w.e.log.accepted
  {
    AbsNoStarter(w);
    if LockQueues(w, more) {
      LateOnlyIf(w, more);
    }
  }

  lemma StepKeepsInv(w: LockedWorld, l: Label)
    requires LockInv(w) && Inv(Abs(w))
    ensures LockInv(LockStep(w, l)) && Inv(Abs(LockStep(w, l)))
  {
    StepSimulates(w, l);
    StepKeeps(Abs(w), l);
  }

  /** Neither of the two holders lets anybody in, nor does what follows. */
  lemma {:induction false} HolderAdmitsNobody(w: LockedWorld, i: nat, more: seq<Label>)
    requires LockInv(w) && Inv(Abs(w)) && (AboutToRefuse(w, i) || AboutToDiscard(w, i)) && NoStartCalls(more)
    ensures LockExec(w, more).e.log.accepted == w.e.log.accepted
    decreases more
  {
    if more != [] {
      var l := more[0];
      var w' := LockStep(w, l);
      assert forall k :: 0 <= k < |more[1..]| ==> more[1..][k] == more[k + 1];
      StepKeepsInv(w, l);
      HolderStep(w, i, l);
      if Closed(w') {
        ClosedForGood(w', more[1..]);
      } else {
        HolderAdmitsNobody(w', i, more[1..]);
      }
    }
  }

  lemma HolderStep(w: LockedWorld, i: nat, l: Label)
    requires LockInv(w) && Inv(Abs(w)) && (AboutToRefuse(w, i) || AboutToDiscard(w, i)) && NoStartCall(l)
    ensures var w' := LockStep(w, l);
      && (AboutToRefuse(w', i) || AboutToDiscard(w', i) || Closed(w')) && w'.e.log.accepted == w.e.log.accepted
  {
    match l
    case Run =>
      if AboutToRefuse(w, i) { RunStaysRefusing(w, i); } else { RunStaysDiscarding(w, i); }
    case Thread(j, call) =>
      if j == i {
        if AboutToRefuse(w, i) { RefusalCloses(w, i, call); } else { MoveDiscards(w, i, call); }
      } else if j < |w.callers| {
        OthersStay(w, i, j, call);
      }
  }

  lemma OnlyIf(w: LockedWorld, more: seq<Label>)
    requires LockInv(w) && Inv(Abs(w)) && !w.flags.started && NobodyStarts(w) && LockQueues(w, more)
    ensures CanStillQueue(w)
  {
    hide SchedStep, LockStep, LockExec, Inv, Finish;
    AbsNoStarter(w);
    LateOnlyIf(w, more);
    var ts := Abs(w).threads;
    if SomePastTest(Abs(w)) {
      var i :| 0 <= i < |ts| && ts[i].IssueCommit?;
      AbsThread(w, i);
      assert Inserting(w.callers[i]);
    } else if !CanStillQueue(w) {
      var i :| 0 <= i < |ts| && ts[i].IssueEnter?;
      AbsThread(w, i);
      if w.callers[i].IssueTest? {
        assert AboutToRefuse(w, i);
        HolderAdmitsNobody(w, i, more);
      } else {
        var j :| 0 <= j < |w.callers| && w.callers[j].StopMove?;
        assert AboutToDiscard(w, j);
        HolderAdmitsNobody(w, j, more);
      }
    }
  }

  // ---------- if ----------

  ghost predicate Queueable(w: LockedWorld) {
    exists more :: LockQueues(w, more)
  }

  /** Steps of one thread first. */
  lemma QueueableVia(w: LockedWorld, l: Label, w': LockedWorld)
    requires NoStartCall(l) && Leads(w, l, w') && (Queueable(w') || w'.e.log.accepted != w.e.log.accepted)
    ensures Queueable(w)
  {
    hide LockStep;
    var k: nat :| LockExec(w, Repeat(l, k)) == w';
    if w'.e.log.accepted != w.e.log.accepted {
      assert LockQueues(w, Repeat(l, k));
    } else {
      var more :| LockQueues(w', more);
      LockSplit(w, Repeat(l, k), more);
      assert LockQueues(w, Repeat(l, k) + more);
    }
  }

  lemma QueueableNext(w: LockedWorld, l: Label)
    requires NoStartCall(l)
    requires Queueable(LockStep(w, l)) || LockStep(w, l).e.log.accepted != w.e.log.accepted
    ensures Queueable(w)
  {
    LeadsStep(w, l);
    QueueableVia(w, l, LockStep(w, l));
  }

  function InsertsLeft(x: Caller): nat {
    if x.IssueAdd? then 2 else if x.IssueFloor? then 1 else 0
  }

  lemma {:induction false} InserterQueues(w: LockedWorld, i: nat)
    requires Exclusive(w) && i < |w.callers| && Inserting(w.callers[i])
    ensures Queueable(w)
    decreases InsertsLeft(w.callers[i])
  {
    var l := Thread(i, CallStop);
    var w' := LockStep(w, l);
    if w.callers[i].IssueTotal? {
      assert |w'.e.log.accepted| == |w.e.log.accepted| + 1;
    } else {
      InserterQueues(w', i);
    }
    QueueableNext(w, l);
  }

  lemma TesterQueues(w: LockedWorld, i: nat)
    requires Exclusive(w) && i < |w.callers| && w.callers[i].IssueTest? && !w.flags.deactiving
    ensures Queueable(w)
  {
    var l := Thread(i, CallStop);
    InserterQueues(LockStep(w, l), i);
    QueueableNext(w, l);
  }

  /** The scheduler clears the flag while the request holds the mutex. */
  lemma {:induction false} TesterWaitsOut(w: LockedWorld, i: nat)
    requires Exclusive(w) && i < |w.callers| && w.callers[i].IssueTest?
    requires w.flags.deactiving ==> ClearsFirst(w)
    ensures Queueable(w)
    decreases w.flags.deactiving, Rank(w.sched.pc)
  {
    hide LockExec;
    if w.flags.deactiving {
      TesterWaitsOut(LockStep(w, Run), i);
      QueueableNext(w, Run);
    } else {
      TesterQueues(w, i);
    }
  }

  /** A request waits, and the flag is clear, or will be once the mutex is free. */
  ghost predicate HasChance(w: LockedWorld, k: nat) {
    && k < |w.callers| && Waits(w.callers[k])
    && (w.flags.deactiving ==> CanClear(Abs(w)) && !StopTaking(w))
  }

  lemma FreeChance(w: LockedWorld, k: nat)
    requires LockInv(w) && Inv(Abs(w)) && HasChance(w, k) && w.mutex == Unlocked
    ensures Queueable(w)
  {
    FreeIsEmbed(w);
    AbsThread(w, k);
    LateIf(Abs(w));
  }

  lemma SectionChance(w: LockedWorld, k: nat)
    requires LockInv(w) && Inv(Abs(w)) && HasChance(w, k) && w.inside != Out
    ensures Queueable(w)
  {
    SectionEnds(w);
    ThroughIsEmbed(w);
    AbsThread(w, k);
    LateIf(Abs(w));
    QueueableVia(w, Run, Through(w));
  }

  /** What the holder of the mutex has still to do before it is free. */
  function HolderLeft(w: LockedWorld, i: nat): nat
    requires i < |w.callers|
  {
    match w.callers[i]
    case IssueTest(_) => 2
    case IssueLeave => 1
    case StopMove(_) => |w.e.onboard| + 2
    case StopLeave(_) => 1
    case _ => 0
  }

  lemma HolderKeepsChance(w: LockedWorld, i: nat, k: nat)
    requires LockInv(w) && HasChance(w, k) && i < |w.callers| && w.mutex == HeldBy(i)
    requires !Inserting(w.callers[i]) && (w.callers[i].IssueTest? ==> w.flags.deactiving)
    ensures var w' := LockStep(w, Thread(i, CallStop));
      && HasChance(w', k)
      && (w'.mutex == Unlocked || (w'.mutex == HeldBy(i) && HolderLeft(w', i) < HolderLeft(w, i)))
      && (w'.mutex != Unlocked ==> !Inserting(w'.callers[i]) && !w'.callers[i].IssueTest?)
  {
    hide SchedStep, Finish, RunStep, PlainStep, Inv;
    var l := Thread(i, CallStop);
    var w' := LockStep(w, l);
    assert w'.callers == w.callers[i := w'.callers[i]];
    StepSimulates(w, l);
    AbsThread(w, i);
    assert forall j :: 0 <= j < |w.callers| && j != i ==> w.callers[j].Plain?;
  }

  lemma {:induction false} HolderChance(w: LockedWorld, i: nat, k: nat)
    requires LockInv(w) && Inv(Abs(w)) && HasChance(w, k) && i < |w.callers| && w.mutex == HeldBy(i)
    ensures Queueable(w)
    decreases HolderLeft(w, i)
  {
    if Inserting(w.callers[i]) {
      InserterQueues(w, i);
    } else if w.callers[i].IssueTest? && !w.flags.deactiving {
      TesterQueues(w, i);
    } else {
      var l := Thread(i, CallStop);
      var w' := LockStep(w, l);
      StepKeepsInv(w, l);
      HolderKeepsChance(w, i, k);
      if w'.mutex == Unlocked { FreeChance(w', k); } else { HolderChance(w', i, k); }
      QueueableNext(w, l);
    }
  }

  lemma If(w: LockedWorld)
    requires LockInv(w) && Inv(Abs(w)) && CanStillQueue(w)
    ensures Queueable(w)
  {
    if i :| 0 <= i < |w.callers| && Inserting(w.callers[i]) {
      InserterQueues(w, i);
    } else if i :| 0 <= i < |w.callers| && w.callers[i].IssueTest? && (w.flags.deactiving ==> ClearsFirst(w)) {
      TesterWaitsOut(w, i);
    } else {
      var k :| 0 <= k < |w.callers| && Waits(w.callers[k])
               && (w.flags.deactiving ==> CanClear(Abs(w)) && !StopTaking(w));
      assert HasChance(w, k);
      if w.mutex.HeldBy? {
        HolderChance(w, w.mutex.i, k);
      } else if w.inside != Out {
        SectionChance(w, k);
      } else {
        FreeChance(w, k);
      }
    }
  }

  /** In every state of every interleaving, the elevator being stopped and no start in progress: a
      passenger can still be queued without a start if and only if CanStillQueue. */
  lemma LateRequestsAnywhere(n: nat, ls: seq<Label>)
    requires !LockExec(Start(n), ls).flags.started && NobodyStarts(LockExec(Start(n), ls))
    ensures var w := LockExec(Start(n), ls);
      (exists more :: LockQueues(w, more)) <==> CanStillQueue(w)
  {
    var w := LockExec(Start(n), ls);
    var large := LocksRefineSections(n, ls);
    Always(n, large);
    if more :| LockQueues(w, more) {
      OnlyIf(w, more);
    }
    if CanStillQueue(w) {
      If(w);
    }
  }
}
