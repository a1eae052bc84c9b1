/**
 What each system call returns and does in whatever state it is called, when nothing interrupts it;
 and what the order of the two flag writes in a start and a stop means for a request in between.
 */
module CallResults {
  import opened Passengers
  import opened Cabin
  import opened AtomicMachine
  import opened Drain
  import opened Undisturbed
  import opened SystemCalls
  import opened LateRequests
  import opened LockMachine
  import opened Refinement
  import opened Realisation
  import opened LockLiveness

  // ---------- one call ----------

  /** A start returns 0 if and only if the elevator was stopped; then it runs, and is not being stopped. */
  ghost predicate StartDoes(x: Shared, x': Shared, result: int) {
    && (result == 0 || result == 1) && (result == 0 <==> !x.flags.started)
    && x' == if result == 0 then Shared(x.e, Flags(true, false)) else x
  }

  /** A request returns 0 if and only if the elevator runs and the arguments are in range; its passenger
      is queued unless a stop is under way, and nothing else changes. */
  ghost predicate RequestDoes(x: Shared, r: Request, x': Shared, result: int) {
    && (result == 0 || result == 1)
    && (result == 0 <==> x.flags.started && (r.kind == 0 || r.kind == 1) && 1 <= r.start <= 10 && 1 <= r.dest <= 10)
    && x'.flags == x.flags
    && (if result == 0 && !x.flags.deactiving then Joins(x.e, r, x'.e) else x'.e == x.e)
  }

  /** The newcomer is last on the list of the start floor, counted there and in all, and that is all. */
  ghost predicate Joins(e: Elevator, r: Request, e': Elevator) {
    var p, f := Passenger(|e.log.accepted|, r.kind, r.start, r.dest), r.start - 1;
    && 0 <= f < 10
    && e' == e.(waiting := e'.waiting, onFloor := e'.onFloor, numWaiting := e.numWaiting + 1,
                log := e.log.(accepted := e.log.accepted + [p]))
    && (forall g :: 0 <= g < 10 ==> e'.waiting[g] == if g == f then e.waiting[g] + [p] else e.waiting[g])
    && (forall g :: 0 <= g < 10 ==> e'.onFloor[g] == if g == f then e.onFloor[g] + 1 else e.onFloor[g])
  }

  /** A stop returns 0 if and only if the elevator runs and no stop is under way; then both flags have
      changed, nobody is on board, and whoever was is discarded and freed. `loads` stays as it was. */
  ghost predicate StopDoes(x: Shared, x': Shared, result: int) {
    && (result == 0 || result == 1) && (result == 0 <==> x.flags.started && !x.flags.deactiving)
    && (if result == 0 then
          && x'.flags == Flags(false, true)
          && x'.e == x.e.(onboard := [], log := x.e.log.(discarded := x.e.log.discarded + x.e.onboard,
                                                         freed := x.e.log.freed + x.e.onboard))
        else x' == x)
  }

  ghost predicate Does(x: Shared, call: Call, x': Shared, result: int) {
    match call
    case CallStart => StartDoes(x, x', result)
    case CallIssue(r) => RequestDoes(x, r, x', result)
    case CallStop => StopDoes(x, x', result)
  }

  lemma OutcomeDoes(x: Shared, call: Call)
    ensures Does(x, call, Outcome(x, call).x, Outcome(x, call).result)
  {
  }

  // ---------- what a thread in the middle of a call is heading for ----------

  function Ended(w: World, i: nat, e: Elevator, f: Flags, result: int): World
    requires i < |w.threads| && e.motion == w.e.motion && e.floor == w.e.floor && e.next == w.e.next
  {
    w.(e := e, flags := f, threads := w.threads[i := Ready(result)])
  }

  /** `w` after the rest of thread `i`'s call. */
  function Completed(w: World, i: nat): World
    requires i < |w.threads|
  {
    var e, f := w.e, w.flags;
    match w.threads[i]
    case Ready(_) => w
    case StartSetStarted => Ended(w, i, e, Flags(true, false), 0)
    case StartClearStop => Ended(w, i, e, f.(deactiving := false), 0)
    case IssueEnter(r) => Ended(w, i, if f.deactiving then e else Enqueue(e, r.start, r.dest, r.kind), f, 0)
    case IssueCommit(r) => Ended(w, i, Enqueue(e, r.start, r.dest, r.kind), f, 0)
    case StopTestFlag =>
      if f.deactiving then Ended(w, i, e, f, 1) else Ended(w, i, Free(Discard(e), e.onboard), Flags(false, true), 0)
    case StopSetFlag => Ended(w, i, Free(Discard(e), e.onboard), Flags(false, true), 0)
    case StopClearStarted => Ended(w, i, Free(Discard(e), e.onboard), f.(started := false), 0)
    case StopEnter => Ended(w, i, Free(Discard(e), e.onboard), f, 0)
    case StopFree(bin) => Ended(w, i, Free(e, bin), f, 0)
  }

  lemma Overwritten(ts: seq<Local>, i: nat, x: Local, y: Local)
    requires i < |ts|
    ensures ts[i := x][i := y] == ts[i := y]
  {
  }

  /** The first step of a call heads for its one-step outcome. */
  lemma SetsOut(w: World, i: nat, call: Call)
    requires i < |w.threads| && w.threads[i].Ready?
    ensures |ThreadStep(w, i, call).threads| == |w.threads|
    ensures Completed(ThreadStep(w, i, call), i) == Whole(w, i, call)
  {
    var x := ThreadStep(w, i, call).threads[i];
    Overwritten(w.threads, i, x, Ready(0));
    Overwritten(w.threads, i, x, Ready(1));
  }

  /** And no later step changes where it leads. */
  lemma StepsOn(w: World, i: nat, call: Call)
    requires i < |w.threads| && !w.threads[i].Ready?
    ensures |ThreadStep(w, i, call).threads| == |w.threads|
    ensures Completed(ThreadStep(w, i, call), i) == Completed(w, i)
  {
    var x := ThreadStep(w, i, call).threads[i];
    Overwritten(w.threads, i, x, Ready(0));
    Overwritten(w.threads, i, x, Ready(1));
    if w.threads[i].StopFree? {
      FreesOn(w.e.log.freed, w.threads[i].bin);
    }
  }

  lemma FreesOn(freed: seq<Passenger>, bin: seq<Passenger>)
    ensures bin == [] ==> freed + bin == freed
    ensures bin != [] ==> freed + bin == (freed + [bin[0]]) + bin[1..]
  {
  }

  // ---------- the program with its mutex ----------

  predicate Idles(w: LockedWorld, i: nat) {
    i < |w.callers| && w.callers[i].Plain? && w.callers[i].x.Ready?
  }

  /** `k` steps of thread `i` alone make one call: it returns after them and not before. */
  ghost predicate ReturnsAfter(w: LockedWorld, i: nat, call: Call, k: nat) {
    && k > 0 && Idles(LockExec(w, Repeat(Thread(i, call), k)), i)
    && forall j :: 0 < j < k ==> !Idles(LockExec(w, Repeat(Thread(i, call), j)), i)
  }

  /** Thread `i` is alone: nobody else is inside a section. */
  ghost predicate Alone(w: LockedWorld, i: nat) {
    LockInv(w) && i < |w.callers| && (w.mutex == Unlocked || w.mutex == HeldBy(i))
  }

  function CallLeft(w: LockedWorld, i: nat): nat
    requires i < |w.callers|
  {
    var n := |w.e.onboard|;
    match w.callers[i]
    case Plain(x) => (
      match x
      case Ready(_) => 0
      case StartSetStarted => 2
      case StartClearStop => 1
      case IssueEnter(_) => 6
      case IssueCommit(_) => 0
      case StopTestFlag => 2 * n + 7
      case StopSetFlag => 2 * n + 6
      case StopClearStarted => 2 * n + 5
      case StopEnter => 2 * n + 4
      case StopFree(bin) => |bin| + 1)
    case StopMove(bin) => 2 * n + |bin| + 3
    case StopLeave(bin) => |bin| + 2
    case _ => HoldLeft(w.e, w.callers[i])
  }

  /** A step outside the section keeps off the mutex, and the first one may call anything. */
  lemma FlagOwnStep(w: LockedWorld, i: nat, call: Call)
    requires i < |w.callers| && w.callers[i].Plain? && !TouchesLists(w.callers[i].x) && !w.callers[i].x.IssueEnter?
    ensures var w' := LockStep(w, Thread(i, call));
      && |w'.callers| == |w.callers| && w'.mutex == w.mutex
      && (!Idles(w, i) ==> CallLeft(w', i) < CallLeft(w, i))
  {
    hide SchedStep, RunStep, Enter, HoldLeft, InsideStep, Unlock, Free, Newcomer;
  }

  lemma EdgeOwnStep(w: LockedWorld, i: nat, call: Call)
    requires i < |w.callers| && w.callers[i].Plain? && w.mutex == Unlocked
    requires w.callers[i].x.IssueEnter? || w.callers[i].x.StopEnter? || w.callers[i].x.StopFree?
    ensures var w' := LockStep(w, Thread(i, call));
      && |w'.callers| == |w.callers| && (w'.mutex == Unlocked || w'.mutex == HeldBy(i))
      && CallLeft(w', i) < CallLeft(w, i)
  {
    hide SchedStep, RunStep, CallStep;
  }

  lemma HeldOwnStep(w: LockedWorld, i: nat, call: Call)
    requires i < |w.callers| && !w.callers[i].Plain? && w.inside == Out && w.mutex == HeldBy(i)
    ensures var w' := LockStep(w, Thread(i, call));
      && |w'.callers| == |w.callers| && (w'.mutex == Unlocked || w'.mutex == HeldBy(i))
      && CallLeft(w', i) < CallLeft(w, i)
  {
    hide SchedStep, RunStep, PlainStep, Abs;
  }

  lemma AloneFrame(w: LockedWorld, i: nat)
    requires Alone(w, i)
    ensures w.inside == Out
    ensures if w.callers[i].Plain? then w.mutex == Unlocked && !w.callers[i].x.IssueCommit? else w.mutex == HeldBy(i)
  {
  }

  lemma OwnStep(w: LockedWorld, i: nat, call: Call)
    requires Alone(w, i)
    ensures Alone(LockStep(w, Thread(i, call)), i)
    ensures !Idles(w, i) ==> CallLeft(LockStep(w, Thread(i, call)), i) < CallLeft(w, i)
  {
    hide LockStep, CallLeft, LockInv, Abs;
    StepSimulates(w, Thread(i, call));
    AloneFrame(w, i);
    if !w.callers[i].Plain? {
      HeldOwnStep(w, i, call);
    } else if TouchesLists(w.callers[i].x) || w.callers[i].x.IssueEnter? {
      EdgeOwnStep(w, i, call);
    } else {
      FlagOwnStep(w, i, call);
    }
  }

  /** Seen from the large steps the call stays on its way. */
  lemma AbsStepsOn(w: LockedWorld, i: nat, call: Call)
    requires Alone(w, i) && !Idles(w, i)
    ensures i < |Abs(w).threads| && i < |Abs(LockStep(w, Thread(i, call))).threads|
    ensures Completed(Abs(LockStep(w, Thread(i, call))), i) == Completed(Abs(w), i)
  {
    hide LockStep, LockInv, Abs, Completed, ThreadStep;
    AbsThread(w, i);
    StepSimulates(w, Thread(i, call));
    if AbsLabels(w, Thread(i, call)) != [] {
      StepsOn(Abs(w), i, call);
    }
  }

  lemma {:induction false} EndsAt(w: LockedWorld, i: nat, call: Call, k: nat)
    requires Alone(w, i) && !Idles(w, i) && Idles(LockExec(w, Repeat(Thread(i, call), k)), i)
    requires forall j :: 0 < j < k ==> !Idles(LockExec(w, Repeat(Thread(i, call), j)), i)
    ensures i < |Abs(w).threads|
    ensures var w' := LockExec(w, Repeat(Thread(i, call), k));
            Alone(w', i) && Abs(w') == Completed(Abs(w), i)
    decreases k
  {
    hide LockStep, LockExec, Abs, Completed, Alone;
    var l := Thread(i, call);
    var w1 := LockStep(w, l);
    LockRepeats(w, l, k);
    if k > 0 {
      OwnStep(w, i, call);
      AbsStepsOn(w, i, call);
      if k == 1 {
        LockRepeats(w1, l, 0);
        ReadyIsCompleted(w1, i);
      } else {
        forall j | 0 <= j < k - 1
          ensures !Idles(LockExec(w1, Repeat(l, j)), i)
        {
          LockRepeats(w, l, j + 1);
        }
        LockRepeats(w1, l, 0);
        EndsAt(w1, i, call, k - 1);
      }
    }
  }

  lemma ReadyIsCompleted(w: LockedWorld, i: nat)
    requires Idles(w, i)
    ensures i < |Abs(w).threads| && Abs(w).threads[i].Ready? && Completed(Abs(w), i) == Abs(w)
  {
    AbsThread(w, i);
  }

  lemma {:induction false} Ends(w: LockedWorld, i: nat, call: Call) returns (k: nat)
    requires Alone(w, i)
    ensures Idles(LockExec(w, Repeat(Thread(i, call), k)), i)
    ensures forall j :: 0 <= j < k ==> !Idles(LockExec(w, Repeat(Thread(i, call), j)), i)
    decreases CallLeft(w, i)
  {
    hide LockStep, LockExec, Alone, CallLeft;
    var l := Thread(i, call);
    LockRepeats(w, l, 0);
    if Idles(w, i) {
      k := 0;
    } else {
      OwnStep(w, i, call);
      k := Ends(LockStep(w, l), i, call);
      k := k + 1;
      LockRepeats(w, l, k);
      forall j | 0 <= j < k
        ensures !Idles(LockExec(w, Repeat(l, j)), i)
      {
        LockRepeats(w, l, j);
      }
    }
  }

  /** In every state of every run with the mutex free, a thread that is left alone gets its call done:
      it returns, and when it first does it has done what `Does` says, and has given the mutex back. */
  lemma EveryCallReturns(n: nat, ls: seq<Label>, i: nat, call: Call)
    requires LockExec(Start(n), ls).mutex == Unlocked && Idles(LockExec(Start(n), ls), i)
    ensures exists k :: ReturnsAfter(LockExec(Start(n), ls), i, call, k)
    ensures forall k :: ReturnsAfter(LockExec(Start(n), ls), i, call, k) ==>
              var w, w' := LockExec(Start(n), ls), LockExec(LockExec(Start(n), ls), Repeat(Thread(i, call), k));
              && i < |w'.callers| && w'.callers[i].Plain? && w'.callers[i].x.Ready?
              && Does(Shared(w.e, w.flags), call, Shared(w'.e, w'.flags), w'.callers[i].x.result)
              && w' == w.(e := w'.e, flags := w'.flags, callers := w.callers[i := w'.callers[i]])
  {
    hide LockStep, LockExec, Abs, Does;
    var w := LockExec(Start(n), ls);
    var v := FreeState(n, ls);
    CallStarts(w, i, call);
    forall k | ReturnsAfter(w, i, call, k)
      ensures LockExec(w, Repeat(Thread(i, call), k)) == Embed(Whole(v, i, call))
    {
      CallEnds(w, v, i, call, k);
    }
    OutcomeDoes(Shared(v.e, v.flags), call);
    PlainOfPut(v.threads, i, Whole(v, i, call).threads[i]);
  }

  lemma CallStarts(w: LockedWorld, i: nat, call: Call)
    requires Alone(w, i)
    ensures exists k :: ReturnsAfter(w, i, call, k)
  {
    hide LockStep, LockExec, Alone;
    var l := Thread(i, call);
    OwnStep(w, i, call);
    var k := Ends(LockStep(w, l), i, call);
    k := k + 1;
    LockRepeats(w, l, k);
    forall j | 0 < j < k
      ensures !Idles(LockExec(w, Repeat(l, j)), i)
    {
      LockRepeats(w, l, j);
    }
    assert ReturnsAfter(w, i, call, k);
  }

  lemma CallEnds(w: LockedWorld, v: World, i: nat, call: Call, k: nat)
    requires Alone(w, i) && Idles(w, i) && Abs(w) == v && ReturnsAfter(w, i, call, k)
    ensures i < |v.threads| && LockExec(w, Repeat(Thread(i, call), k)) == Embed(Whole(v, i, call))
  {
    hide LockStep, LockExec, Abs, Whole, Completed, ThreadStep, LockInv, ReturnsAfter;
    var l := Thread(i, call);
    var w1, w' := LockStep(w, l), LockExec(w, Repeat(l, k));
    OwnStep(w, i, call);
    FirstStepAbs(w, i, call);
    AfterFirst(w, i, call, k);
    if k == 1 {
      ReadyIsCompleted(w1, i);
    } else {
      EndsAt(w1, i, call, k - 1);
    }
    AloneIsFree(w', i);
    FreeIsEmbed(w');
  }

  /** The first step of a call, and the others. */
  lemma AfterFirst(w: LockedWorld, i: nat, call: Call, k: nat)
    requires ReturnsAfter(w, i, call, k)
    ensures var l := Thread(i, call);
            var w1, w' := LockStep(w, l), LockExec(w, Repeat(l, k));
      && k > 0 && Idles(w', i) && w' == LockExec(w1, Repeat(l, k - 1))
      && (if k == 1 then w' == w1
          else !Idles(w1, i) && forall j :: 0 < j < k - 1 ==> !Idles(LockExec(w1, Repeat(l, j)), i))
  {
    hide LockStep, LockExec, Idles;
    var l := Thread(i, call);
    LockRepeats(w, l, k);
    LockRepeats(w, l, 1);
    LockRepeats(LockStep(w, l), l, 0);
    forall j | 0 < j < k - 1
      ensures !Idles(LockExec(LockStep(w, l), Repeat(l, j)), i)
    {
      LockRepeats(w, l, j + 1);
    }
  }

  lemma FirstStepAbs(w: LockedWorld, i: nat, call: Call)
    requires Alone(w, i) && Idles(w, i)
    ensures i < |Abs(w).threads| && i < |Abs(LockStep(w, Thread(i, call))).threads|
    ensures Completed(Abs(LockStep(w, Thread(i, call))), i) == Whole(Abs(w), i, call)
  {
    hide LockStep, LockInv, Abs, Completed, ThreadStep, Whole;
    AbsThread(w, i);
    StepSimulates(w, Thread(i, call));
    SetsOut(Abs(w), i, call);
  }

  lemma AloneIsFree(w: LockedWorld, i: nat)
    requires Alone(w, i) && Idles(w, i)
    ensures w.mutex == Unlocked
  {
  }

  // ---------- runs of whole calls ----------

  /** When no call is interrupted a running elevator is not being stopped, so that a request returns 0
      exactly when it queues its passenger, and a stop exactly when the elevator runs. */
  lemma EveryWholeCallReturns(n: nat, evs: seq<Event>, i: nat, call: Call)
    requires i < |CoarseExec(Init(n), evs).threads|
    ensures var w, w' := CoarseExec(Init(n), evs), CoarseExec(Init(n), evs + [Served(i, call)]);
      && w'.sched == w.sched && |w'.threads| == |w.threads|
      && w'.threads == w.threads[i := w'.threads[i]] && w'.threads[i].Ready?
      && Does(Shared(w.e, w.flags), call, Shared(w'.e, w'.flags), w'.threads[i].result)
      && (w'.threads[i].result == 0 <==>
            match call
            case CallStart => !w.flags.started
            case CallIssue(r) =>
              w.flags.started && (r.kind == 0 || r.kind == 1) && 1 <= r.start <= 10 && 1 <= r.dest <= 10
            case CallStop => w.flags.started)
      && (call.CallIssue? && w'.threads[i].result == 0 ==> Joins(w.e, call.request, w'.e))
  {
    hide Joins;
    var w: World := CoarseExec(Init(n), evs);
    CoarseKeepsGate(Init(n), evs);
    CoarseSplit(Init(n), evs, [Served(i, call)]);
    assert [Served(i, call)][1..] == [];
    assert CoarseExec(w, [Served(i, call)]) == CoarseExec(Whole(w, i, call), []) == Whole(w, i, call);
    OutcomeDoes(Shared(w.e, w.flags), call);
  }

  // ---------- between the two writes ----------

  /** A stop sets `deactiving` before it clears `started`, and a start sets `started` before it clears
      `deactiving`. So a good request that comes in between passes the test of line 112: it returns 0,
      and queues nobody if `deactiving` is set. Once a stop has made both writes a request returns 1. */
  lemma BetweenFlagWrites(w: World, i: nat, j: nat, r: Checked, c: Call)
    requires i < |w.threads| && j < |w.threads| && i != j && w.threads[j].Ready?
    requires w.threads[i].StopSetFlag? || w.threads[i].StartSetStarted? || w.threads[i].StopClearStarted?
    requires w.threads[i].StopSetFlag? ==> w.flags.started
    ensures var x, w1 := w.threads[i], Step(w, Thread(i, c));
            var w2 := Whole(w1, j, CallIssue(r));
      if x.StopSetFlag? then w2.threads[j] == Ready(0) && w2.e == w.e
      else if x.StopClearStarted? then w2.threads[j] == Ready(1) && w2.e == w.e
      else w2.threads[j] == Ready(0) && if w.flags.deactiving then w2.e == w.e else Joins(w.e, r, w2.e)
  {
    hide Joins;
    var w1 := Step(w, Thread(i, c));
    OutcomeDoes(Shared(w1.e, w1.flags), CallIssue(r));
  }

  // ---------- before the first start ----------

  /** As setup left it, but for the iterations of an idle scheduler and for calls that were refused. */
  ghost predicate Untouched(w: World) {
    && w.flags == Flags(false, false) && w.e.motion == Offline
    && w.e.log.accepted == [] && w.e.numWaiting == 0 && w.e.onboard == []
    && (w.sched.pc == TestWaiting || w.sched.pc == TestOnboard || w.sched.pc == Resting)
    && forall i :: 0 <= i < |w.threads| ==> w.threads[i].Ready?
  }

  lemma StepLeavesUntouched(w: World, l: Label)
    requires Untouched(w) && NoStartCall(l)
    ensures Untouched(Step(w, l))
    ensures l.Thread? && l.i < |w.threads| ==> Step(w, l).threads[l.i] == Ready(1)
  {
  }

  lemma {:induction false} RunsLeaveUntouched(w: World, ls: seq<Label>)
    requires Untouched(w) && NoStartCalls(ls)
    ensures Untouched(Exec(w, ls))
    decreases ls
  {
    hide Step, Untouched;
    if ls != [] {
      assert forall k :: 0 <= k < |ls[1..]| ==> ls[1..][k] == ls[k + 1];
      StepLeavesUntouched(w, ls[0]);
      RunsLeaveUntouched(Step(w, ls[0]), ls[1..]);
    }
  }

  /** Until the first start every other call returns 1 at once, nobody is accepted, and OFFLINE is shown. */
  lemma NothingBeforeStart(n: nat, ls: seq<Label>, i: nat, call: Call)
    requires NoStartCalls(ls) && i < |Exec(Init(n), ls).threads|
    ensures var w := Exec(Init(n), ls);
      && w.flags == Flags(false, false) && w.e.motion == Offline && w.e.log.accepted == [] && w.threads[i].Ready?
      && (!call.CallStart? ==> Step(w, Thread(i, call)) == w.(threads := w.threads[i := Ready(1)]))
  {
    RunsLeaveUntouched(Init(n), ls);
  }
}
