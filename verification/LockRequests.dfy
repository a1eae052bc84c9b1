/** Requests that are late for a stop, in the program with its mutex. */
module LockRequests {
  import opened Passengers
  import opened Cabin
  import opened AtomicMachine
  import opened Runs
  import opened Undisturbed
  import opened SystemCalls
  import opened Clearing
  import opened LateRequests
  import opened LockMachine
  import opened Refinement
  import opened Realisation
  import opened LockLiveness

  // ---------- exactly when a passenger can still be queued ----------

  ghost predicate LockQueues(w: LockedWorld, ls: seq<Label>) {
    NoStartCalls(ls) && LockExec(w, ls).e.log.accepted != w.e.log.accepted
  }

  lemma {:induction false} FinishAccepts(c: Section)
    ensures Finish(c).e.log.accepted == c.e.log.accepted
    decreases StepsLeft(c.x)
  {
    if InUnload(c.x) && !c.x.UScan? {
      FinishAccepts(UnloadMicro(c));
    } else if InLoad(c.x) && !c.x.LScan? {
      FinishAccepts(LoadMicro(c));
    }
  }

  lemma AbsAccepts(w: LockedWorld)
    ensures Abs(w).e.log.accepted == w.e.log.accepted
  {
    if w.inside != Out {
      FinishAccepts(At(w.e, w.sched, w.inside));
    }
  }

  /** Whoever queues a passenger late does so in the large steps too. */
  lemma LateOnlyIf(w: LockedWorld, more: seq<Label>)
    requires LockInv(w) && Inv(Abs(w)) && !w.flags.started && NoStarter(Abs(w)) && LockQueues(w, more)
    ensures SomePastTest(Abs(w)) || (SomePastGate(Abs(w)) && (w.flags.deactiving ==> CanClear(Abs(w))))
  {
    var large := RunRefines(w, more);
    AbsAccepts(w);
    AbsAccepts(LockExec(w, more));
    forall k | 0 <= k < |large|
      ensures NoStartCall(large[k])
    {
      assert large[k] in large;
    }
    assert Queues(Abs(w), large);
    LateRequestsExactly(Abs(w));
  }

  /** A request waiting for the mutex queues its passenger once the flag is clear. */
  lemma WaiterQueues(v: World, i: nat) returns (ls: seq<Label>)
    requires i < |v.threads| && v.threads[i].IssueEnter? && !v.flags.deactiving
    ensures LockQueues(Embed(v), ls)
  {
    var l, r := Thread(i, CallStop), v.threads[i].request;
    var v' := Resume(WithElevator(v, Enqueue(v.e, r.start, r.dest, r.kind)), i, Ready(0));
    IssueRealised(v, i, CallStop);
    var k: nat :| LockExec(Embed(v), Repeat(l, k)) == Embed(v');
    ls := Repeat(l, k);
    assert |v'.e.log.accepted| == |v.e.log.accepted| + 1;
  }

  /** The scheduler clears the flag, taking and releasing the mutex as it goes. */
  lemma ClearsUnderLock(v: World) returns (v': World, ls: seq<Label>)
    requires Inv(v) && v.flags.deactiving && CanClear(v)
    ensures LockExec(Embed(v), ls) == Embed(v') && NoStartCalls(ls) && Leads(Embed(v), Run, Embed(v'))
    ensures Inv(v') && v'.threads == v.threads && v'.flags == v.flags.(deactiving := false)
    ensures v'.e.log.accepted == v.e.log.accepted
  {
    hide SchedStep, LockExec, Exec, Embed, Inv, LockStep;
    v' := Clears(v);
    var k: nat :| Exec(v, Repeat(Run, k)) == v';
    SchedRunRealised(v, k);
    var j: nat :| LockExec(Embed(v), Repeat(Run, j)) == Embed(v');
    ls := Repeat(Run, j);
  }

  lemma LateIf(v: World)
    requires Inv(v) && SomePastGate(v) && (v.flags.deactiving ==> CanClear(v))
    ensures exists ls :: LockQueues(Embed(v), ls)
  {
    hide SchedStep, Inv;
    var i :| 0 <= i < |v.threads| && v.threads[i].IssueEnter?;
    if v.flags.deactiving {
      var v', first := ClearsUnderLock(v);
      var rest := WaiterQueues(v', i);
      LockSplit(Embed(v), first, rest);
      assert LockQueues(Embed(v), first + rest);
    } else {
      var ls := WaiterQueues(v, i);
    }
  }

  /** Some request has read `started` and waits for the mutex. */
  ghost predicate SomeWaits(w: LockedWorld) {
    exists i :: 0 <= i < |w.callers| && w.callers[i].Plain? && w.callers[i].x.IssueEnter?
  }

  /** `CanClear`, with the mutex free. */
  predicate Unfinished(w: LockedWorld) {
    w.e.log.discarded == [] && (w.e.numWaiting > 0 || w.e.onboard != [] || InBody(w.sched.pc))
  }

  /** The elevator is stopped, no start is in progress, and the mutex is free: a passenger can still be
      queued without a start if and only if a request waits for the mutex, and `deactiving` is clear or
      the scheduler will clear it when left alone. */
  lemma LateRequestsUnderLock(n: nat, ls: seq<Label>)
    requires var w := LockExec(Start(n), ls);
      && w.mutex == Unlocked && !w.flags.started
      && forall i :: 0 <= i < |w.callers| && w.callers[i].Plain?
           ==> !w.callers[i].x.StartSetStarted? && !w.callers[i].x.StartClearStop?
    ensures var w := LockExec(Start(n), ls);
      (exists more :: LockQueues(w, more)) <==> SomeWaits(w) && (w.flags.deactiving ==> Unfinished(w))
  {
    var w := LockExec(Start(n), ls);
    var v := FreeState(n, ls);
    if more :| LockQueues(w, more) {
      LateOnlyIf(w, more);
      var i :| 0 <= i < |v.threads| && v.threads[i].IssueEnter?;
      assert w.callers[i] == Plain(v.threads[i]);
    }
    if SomeWaits(w) && (w.flags.deactiving ==> Unfinished(w)) {
      var i :| 0 <= i < |w.callers| && w.callers[i].Plain? && w.callers[i].x.IssueEnter?;
      assert w.callers[i] == Plain(v.threads[i]);
      LateIf(v);
    }
  }

  // ---------- a run in which it happens ----------

  /** `p` is the newest request and last on the list of its floor. */
  predicate JustQueued(e: Elevator, r: Checked) {
    && e.log.accepted != [] && e.waiting[r.start - 1] != []
    && var p := e.log.accepted[|e.log.accepted| - 1];
       && p == Passenger(|e.log.accepted| - 1, r.kind, r.start, r.dest)
       && e.waiting[r.start - 1][|e.waiting[r.start - 1]| - 1] == p
  }

  /** Thread 0 is in `issue_request`, past line 112; the last call of thread 1 returned 1. */
  ghost predicate GatePassed(w: LockedWorld, r: Checked) {
    w.callers == [Plain(IssueEnter(r)), Plain(Ready(1))] && w.mutex == Unlocked && w.flags == Flags(true, false)
  }

  /** Now a stop by thread 1 has returned 0. */
  ghost predicate StopReturned(w: LockedWorld, r: Checked) {
    w.callers == [Plain(IssueEnter(r)), Plain(Ready(0))] && w.mutex == Unlocked && w.flags == Flags(false, true)
  }

  /** And now the scheduler has cleared `deactiving`. */
  ghost predicate FlagCleared(w: LockedWorld, r: Checked) {
    w.callers == [Plain(IssueEnter(r)), Plain(Ready(0))] && w.mutex == Unlocked && w.flags == Flags(false, false)
  }

  /** The request has returned 0 with its passenger queued, in an elevator that is down. */
  ghost predicate QueuedLate(w: LockedWorld, r: Checked) {
    w.callers == [Plain(Ready(0)), Plain(Ready(0))] && w.flags == Flags(false, false) && JustQueued(w.e, r)
  }

  /** A refused stop by thread 1 and a start by thread 0. */
  lemma Started() returns (v: World)
    ensures Arrives(2, Embed(v)) && v == World(Setup(), Flags(true, false), FRESH, [Ready(0), Ready(1)])
  {
    var v0: World := Init(2);
    ArrivesFirst(2);
    assert v0.threads == [Ready(0), Ready(0)];
    var v1: World := v0.(threads := [Ready(0), Ready(1)]);
    assert Whole(v0, 1, CallStop) == v1;
    ArrivesWhole(2, v0, 1, CallStop);
    v := v1.(flags := Flags(true, false));
    assert v1.threads[0 := Ready(0)] == v1.threads;
    ArrivesWhole(2, v1, 0, CallStart);
  }

  /** Then a request by thread 0, and another one up to its wait for the mutex. */
  lemma UpToGate(r: Checked) returns (v: World)
    ensures Arrives(2, Embed(v)) && GatePassed(Embed(v), r)
    ensures v.threads == [IssueEnter(r), Ready(1)] && v.flags == Flags(true, false)
    ensures v.e.numWaiting == 1 && v.e.onboard == [] && v.e.log.discarded == []
  {
    var v0 := Started();
    var v1 := WithElevator(v0, Enqueue(v0.e, r.start, r.dest, r.kind));
    assert v0.threads[0 := Ready(0)] == v0.threads;
    ArrivesWhole(2, v0, 0, CallIssue(r));
    v := PassesGate(v1, r);
  }

  lemma PassesGate(v: World, r: Checked) returns (v': World)
    requires Arrives(2, Embed(v)) && v.threads == [Ready(0), Ready(1)] && v.flags == Flags(true, false)
    ensures v' == v.(threads := [IssueEnter(r), Ready(1)]) && Arrives(2, Embed(v')) && GatePassed(Embed(v'), r)
  {
    v' := v.(threads := [IssueEnter(r), Ready(1)]);
    assert ThreadStep(v, 0, CallIssue(r)) == v';
    CallStepRealised(v, 0, CallIssue(r));
    ArrivesBy(2, Embed(v), Thread(0, CallIssue(r)), Embed(v'));
  }

  lemma StopReturns(v1: World, r: Checked) returns (v2: World)
    requires Inv(v1) && v1.threads == [IssueEnter(r), Ready(1)] && v1.flags == Flags(true, false)
    requires v1.e.numWaiting == 1 && v1.e.onboard == [] && v1.e.log.discarded == []
    ensures Leads(Embed(v1), Thread(1, CallStop), Embed(v2)) && StopReturned(Embed(v2), r)
    ensures Inv(v2) && v2.threads == [IssueEnter(r), Ready(0)] && v2.flags == Flags(false, true) && CanClear(v2)
  {
    hide SchedStep, LockStep, LockExec, Exec, Inv;
    v2 := Whole(v1, 1, CallStop);
    WholeRealised(v1, 1, CallStop);
    WholeKeeps(v1, 1, CallStop);
  }

  lemma LateOneQueues(v3: World, r: Checked) returns (v4: World)
    requires v3.threads == [IssueEnter(r), Ready(0)] && v3.flags == Flags(false, false)
    ensures Leads(Embed(v3), Thread(0, CallStop), Embed(v4)) && QueuedLate(Embed(v4), r)
  {
    v4 := Resume(WithElevator(v3, Enqueue(v3.e, r.start, r.dest, r.kind)), 0, Ready(0));
    IssueRealised(v3, 0, CallStop);
  }

  /** The four stages of a late request: past line 112, a stop called and returned 0, `deactiving`
      cleared by the scheduler at line 398, the passenger queued. */
  ghost predicate LateStory(w1: LockedWorld, w2: LockedWorld, w3: LockedWorld, w4: LockedWorld, r: Checked) {
    && GatePassed(w1, r)
    && Leads(w1, Thread(1, CallStop), w2) && StopReturned(w2, r)
    && Leads(w2, Run, w3) && FlagCleared(w3, r)
    && Leads(w3, Thread(0, CallStop), w4) && QueuedLate(w4, r)
  }

  /** Some run goes through all four. */
  lemma LateRequestHappens()
    ensures exists w1, w2, w3, w4, r :: Arrives(2, w1) && LateStory(w1, w2, w3, w4, r)
  {
    var r: Checked := Request(1, 2, 0);
    var v1 := UpToGate(r);
    ArrivedInv(2, v1);
    var v2 := StopReturns(v1, r);
    var v3, clearing := ClearsUnderLock(v2);
    assert FlagCleared(Embed(v3), r);
    var v4 := LateOneQueues(v3, r);
    assert LateStory(Embed(v1), Embed(v2), Embed(v3), Embed(v4), r);
  }

  // ---------- a test that goes stale ----------

  /** A request holds the mutex and has found `deactiving` clear; a stop has since set it, and waits. */
  ghost predicate TestStale(w: LockedWorld, r: Checked) {
    w.callers == [IssueAdd(r), Plain(StopEnter)] && w.mutex == HeldBy(0) && w.flags == Flags(false, true)
  }

  /** The passenger is queued while the flag is set and the stop still waits. */
  ghost predicate QueuedAnyway(w: LockedWorld, r: Checked) {
    && w.callers == [IssueLeave, Plain(StopEnter)] && w.mutex == HeldBy(0) && w.flags == Flags(false, true)
    && JustQueued(w.e, r)
  }

  /** `v` with the mutex at thread 0. */
  function Held(v: World, e: Elevator, f: Flags, x: Caller, y: Local): RawLocked {
    Locked(e, f, v.sched, Out, HeldBy(0), [x, Plain(y)])
  }

  /** With the mutex at thread 0, thread 1 goes through the unlocked part of a stop. */
  lemma StopWaits(v: World, e: Elevator, x: Caller)
    requires Held(v, e, Flags(true, false), x, Ready(1)).Shaped()
    ensures Held(v, e, Flags(false, true), x, StopEnter).Shaped()
    ensures Leads(Held(v, e, Flags(true, false), x, Ready(1)), Thread(1, CallStop),
                  Held(v, e, Flags(false, true), x, StopEnter))
  {
    hide SchedStep, LockStep, LockExec;
    var l := Thread(1, CallStop);
    var w0: LockedWorld := Held(v, e, Flags(true, false), x, Ready(1));
    LeadsStep(w0, l);
    OtherMoves(v, w0, e, Flags(true, false), x, Ready(1));
    OtherMoves(v, w0, e, Flags(true, false), x, StopTestFlag);
    OtherMoves(v, w0, e, Flags(true, false), x, StopSetFlag);
    OtherMoves(v, w0, e, Flags(true, true), x, StopClearStarted);
  }

  /** One step of thread 1 on the flags, while thread 0 holds the mutex. */
  lemma OtherMoves(v: World, w0: LockedWorld, e: Elevator, f: Flags, x: Caller, y: Local)
    requires Held(v, e, f, x, y).Shaped() && Leads(w0, Thread(1, CallStop), Held(v, e, f, x, y))
    requires !TouchesLists(y) && !y.IssueEnter?
    ensures var m := CallStep(f, y, CallStop);
            Held(v, e, m.flags, x, m.next).Shaped()
            && Leads(w0, Thread(1, CallStop), Held(v, e, m.flags, x, m.next))
  {
    var m := CallStep(f, y, CallStop);
    var w: LockedWorld := Held(v, e, f, x, y);
    LeadsNext(w0, Thread(1, CallStop), w);
    assert [x, Plain(y)][1 := Plain(m.next)] == [x, Plain(m.next)];
    assert LockStep(w, Thread(1, CallStop)) == Held(v, e, m.flags, x, m.next);
  }

  /** From its test to the increment of `num_waiting`, whatever the flags have become. */
  lemma QueuesAnyway(v: World, f: Flags, r: Checked, y: Local) returns (w': LockedWorld)
    requires Held(v, v.e, f, IssueAdd(r), y).Shaped()
    ensures Leads(Held(v, v.e, f, IssueAdd(r), y), Thread(0, CallStop), w')
    ensures w'.callers == [IssueLeave, Plain(y)] && w'.mutex == HeldBy(0) && w'.flags == f && JustQueued(w'.e, r)
  {
    hide SchedStep, LockExec, RunStep;
    var l := Thread(0, CallStop);
    var w: LockedWorld := Held(v, v.e, f, IssueAdd(r), y);
    var w1 := LockStep(w, l);
    LeadsStep(w, l);
    var w2 := LockStep(w1, l);
    LeadsNext(w, l, w1);
    w' := LockStep(w2, l);
    LeadsNext(w, l, w2);
  }

  lemma GoesStale(v: World, r: Checked) returns (w1: LockedWorld, w2: LockedWorld, w3: LockedWorld)
    requires v.threads == [Ready(0), Ready(1)] && v.flags == Flags(true, false)
    ensures Leads(Embed(v), Thread(0, CallIssue(r)), w1) && Leads(w1, Thread(1, CallStop), w2)
    ensures TestStale(w2, r) && Leads(w2, Thread(0, CallStop), w3) && QueuedAnyway(w3, r)
  {
    var l := Thread(0, CallIssue(r));
    var v1 := Resume(v, 0, IssueEnter(r));
    CallStepRealised(v, 0, CallIssue(r));
    assert Embed(v1).callers == [Plain(IssueEnter(r)), Plain(Ready(1))];
    var w0: LockedWorld := Held(v, v.e, v.flags, IssueTest(r), Ready(1));
    assert LockStep(Embed(v1), l) == w0;
    LeadsNext(Embed(v), l, Embed(v1));
    w1 := Held(v, v.e, v.flags, IssueAdd(r), Ready(1));
    assert LockStep(w0, l) == w1;
    LeadsNext(Embed(v), l, w0);
    StopWaits(v, v.e, IssueAdd(r));
    w2 := Held(v, v.e, Flags(false, true), IssueAdd(r), StopEnter);
    w3 := QueuesAnyway(v, Flags(false, true), r, StopEnter);
  }

  /** The section of `issue_request` is not atomic: some run gets to a stale test, and from there the
      request queues its passenger although the flag is set. */
  lemma TestGoesStale()
    ensures exists w, w', r ::
              Arrives(2, w) && TestStale(w, r) && Leads(w, Thread(0, CallStop), w') && QueuedAnyway(w', r)
  {
    var r: Checked := Request(1, 2, 0);
    var v := Started();
    var w1, w2, w3 := GoesStale(v, r);
    ArrivesBy(2, Embed(v), Thread(0, CallIssue(r)), w1);
    ArrivesBy(2, w1, Thread(1, CallStop), w2);
  }
}
