/**
 The converse of the refinement: with the mutex free, a step of the scheduler and a whole system call
 of AtomicMachine are what LockMachine does when the thread is left alone until it is through.
 */
module Realisation {
  import opened Passengers
  import opened Cabin
  import opened AtomicMachine
  import opened Undisturbed
  import opened SystemCalls
  import opened LockMachine
  import opened Refinement

  /** A state with the mutex free, seen by LockMachine. */
  function Embed(v: World): LockedWorld {
    Locked(v.e, v.flags, v.sched, Out, Unlocked, PlainOf(v.threads))
  }

  function PlainOf(ts: seq<Local>): seq<Caller> {
    seq(|ts|, i requires 0 <= i < |ts| => Plain(ts[i]))
  }

  lemma PlainOfPut(ts: seq<Local>, i: nat, x: Local)
    requires i < |ts|
    ensures PlainOf(ts[i := x]) == PlainOf(ts)[i := Plain(x)]
  {
  }

  lemma {:induction false} LockSplit(w: LockedWorld, front: seq<Label>, back: seq<Label>)
    ensures LockExec(w, front + back) == LockExec(LockExec(w, front), back)
    decreases front
  {
    if front == [] {
      assert [] + back == back;
    } else {
      assert (front + back)[1..] == front[1..] + back;
      LockSplit(LockStep(w, front[0]), front[1..], back);
    }
  }

  /** `w'` is reached from `w` when only one thread runs. */
  ghost predicate Leads(w: LockedWorld, l: Label, w': LockedWorld) {
    exists k: nat :: LockExec(w, Repeat(l, k)) == w'
  }

  lemma LeadsTrans(a: LockedWorld, l: Label, b: LockedWorld, c: LockedWorld)
    requires Leads(a, l, b) && Leads(b, l, c)
    ensures Leads(a, l, c)
  {
    hide LockStep;
    var j: nat :| LockExec(a, Repeat(l, j)) == b;
    var k: nat :| LockExec(b, Repeat(l, k)) == c;
    LockSplit(a, Repeat(l, j), Repeat(l, k));
    assert Repeat(l, j) + Repeat(l, k) == Repeat(l, j + k);
  }

  lemma LeadsStep(w: LockedWorld, l: Label)
    ensures Leads(w, l, w) && Leads(w, l, LockStep(w, l))
  {
    assert LockExec(w, Repeat(l, 0)) == w;
    assert Repeat(l, 1) == [l];
    assert LockExec(w, Repeat(l, 1)) == LockExec(LockStep(w, l), []) == LockStep(w, l);
  }

  lemma LeadsNext(a: LockedWorld, l: Label, b: LockedWorld)
    requires Leads(a, l, b)
    ensures Leads(a, l, LockStep(b, l))
  {
    LeadsStep(b, l);
    LeadsTrans(a, l, b, LockStep(b, l));
  }

  // ---------- the scheduler ----------

  /** How many nodes the traversal has still to handle, the one in hand included. */
  function NodesLeft(c: Section): nat {
    match c.x
    case UScan(i) => |c.e.onboard| - i
    case UMove(i) => |c.e.onboard| - i
    case ULoads(i) => |c.e.onboard| - i + 1
    case UServiced(i) => |c.e.onboard| - i + 1
    case LScan(i) => |Queue(c.e)| - i
    case LMove(i) => |Queue(c.e)| - i
    case LStatus(i) => |Queue(c.e)| - i + 1
    case LLoads(i) => |Queue(c.e)| - i + 1
    case LFloor(i) => |Queue(c.e)| - i + 1
    case LTotal(i) => |Queue(c.e)| - i + 1
    case _ => 0
  }

  /** How far it is with the node in hand. */
  function NodeWork(x: Inside): nat {
    if x.UScan? || x.LScan? then 6 else StepsLeft(x)
  }

  lemma UnloadShrinks(c: Section)
    requires InUnload(c.x)
    ensures var c' := UnloadMicro(c);
            NodesLeft(c') < NodesLeft(c) || (NodesLeft(c') == NodesLeft(c) && NodeWork(c'.x) < NodeWork(c.x))
  {
  }

  lemma LoadShrinks(c: Section)
    requires InLoad(c.x)
    ensures var c' := LoadMicro(c);
            NodesLeft(c') < NodesLeft(c) || (NodesLeft(c') == NodesLeft(c) && NodeWork(c'.x) < NodeWork(c.x))
  {
  }

  /** `w` with the scheduler's section completed and the mutex free. */
  function Through(w: LockedWorld): RawLocked {
    var d := Finish(At(w.e, w.sched, w.inside));
    w.(e := d.e, sched := d.s, inside := Out, mutex := Unlocked)
  }

  lemma ThroughShaped(w: LockedWorld)
    requires w.inside != Out
    ensures Through(w).Shaped()
  {
    FinishShape(At(w.e, w.sched, w.inside));
  }

  /** The unlock at the end of a section. */
  lemma LeavingEnds(w: LockedWorld)
    requires w.inside == ULeave || w.inside == LLeave
    ensures LockStep(w, Run) == Through(w)
  {
  }

  lemma MicroGoesOn(w: LockedWorld)
    requires w.inside != Out && (InUnload(w.inside) || InLoad(w.inside))
    ensures var c, w1 := At(w.e, w.sched, w.inside), LockStep(w, Run);
      At(w1.e, w1.sched, w1.inside) == (if InUnload(c.x) then UnloadMicro(c) else LoadMicro(c))
      && w1.inside != Out && w1 == w.(e := w1.e, sched := w1.sched, inside := w1.inside)
  {
    hide Finish, SchedStep;
  }

  /** A section of the scheduler comes to its end, with the outcome the refinement predicts. */
  lemma {:induction false} SectionEnds(w: LockedWorld)
    requires w.inside != Out
    ensures Through(w).Shaped() && Leads(w, Run, Through(w))
    decreases NodesLeft(At(w.e, w.sched, w.inside)), NodeWork(w.inside)
  {
    hide SchedStep, Finish, LockExec, LockStep, UnloadMicro, LoadMicro;
    var c: Section := At(w.e, w.sched, w.inside);
    ThroughShaped(w);
    LeadsStep(w, Run);
    if InUnload(c.x) || InLoad(c.x) {
      var w1 := LockStep(w, Run);
      MicroGoesOn(w);
      if InUnload(c.x) {
        UnloadShrinks(c);
        UnloadMicroFinishes(c);
      } else {
        LoadShrinks(c);
        LoadMicroFinishes(c);
      }
      SectionEnds(w1);
      LeadsTrans(w, Run, w1, Through(w));
    } else {
      LeavingEnds(w);
    }
  }

  lemma AbsEmbed(v: World)
    ensures Abs(Embed(v)) == v
    ensures (forall i :: 0 <= i < |v.threads| ==> !v.threads[i].IssueCommit?) ==> LockInv(Embed(v))
  {
    assert AbsCallers(v.e, PlainOf(v.threads)) == v.threads;
  }

  lemma AbsThread(w: LockedWorld, i: nat)
    requires i < |w.callers|
    ensures |Abs(w).threads| == |w.callers| && Abs(w).threads[i] == AbsCaller(w.e, w.callers[i])
  {
  }

  lemma FreeIsEmbed(w: LockedWorld)
    requires LockInv(w) && w.mutex == Unlocked
    ensures w == Embed(Abs(w))
  {
    forall i | 0 <= i < |w.callers|
      ensures w.callers[i] == PlainOf(Abs(w).threads)[i]
    {
      AbsThread(w, i);
    }
    assert w.callers == PlainOf(Abs(w).threads);
  }

  lemma ThroughIsEmbed(w: LockedWorld)
    requires LockInv(w) && w.inside != Out
    ensures Through(w) == Embed(Abs(w))
  {
    forall i | 0 <= i < |w.callers|
      ensures w.callers[i] == PlainOf(Abs(w).threads)[i]
    {
      AbsThread(w, i);
      assert w.callers[i].Plain?;
    }
    assert w.callers == PlainOf(Abs(w).threads);
  }

  /** Unless a caller holds the mutex, the scheduler alone gets to where it is free. */
  lemma SchedulerFrees(w: LockedWorld)
    requires LockInv(w) && !w.mutex.HeldBy?
    ensures Leads(w, Run, Embed(Abs(w)))
  {
    if w.inside != Out {
      SectionEnds(w);
      ThroughIsEmbed(w);
    } else {
      FreeIsEmbed(w);
      LeadsStep(w, Run);
    }
  }

  lemma EnteringEnds(v: World)
    requires v.sched.pc == Unloading || v.sched.pc == Boarding
    ensures Leads(Embed(v), Run, Embed(SchedStep(v)))
  {
    var w := LockStep(Embed(v), Run);
    LeadsStep(Embed(v), Run);
    SectionEnds(w);
    SectionOutcome(v);
    LeadsTrans(Embed(v), Run, w, Through(w));
  }

  lemma SectionOutcome(v: World)
    requires v.sched.pc == Unloading || v.sched.pc == Boarding
    ensures LockStep(Embed(v), Run).inside != Out
    ensures Through(LockStep(Embed(v), Run)) == Embed(SchedStep(v))
  {
    assert v.e.onboard[0..] == v.e.onboard;
    assert [] + Outgoing(v.e) == Outgoing(v.e);
    assert Queue(Mark(v.e))[0..] == Queue(v.e);
  }

  lemma OutsideStep(v: World)
    requires v.sched.pc != Unloading && v.sched.pc != Boarding
    ensures LockStep(Embed(v), Run) == Embed(SchedStep(v))
  {
    SchedIgnoresLists(v.e, v.e, v.flags, v.sched, v.threads);
    assert WithLists(v.e, v.e) == v.e;
  }

  /** A step of the scheduler, its section included. */
  lemma SchedRealised(v: World)
    ensures Leads(Embed(v), Run, Embed(SchedStep(v)))
  {
    if v.sched.pc == Unloading || v.sched.pc == Boarding {
      EnteringEnds(v);
    } else {
      OutsideStep(v);
      LeadsStep(Embed(v), Run);
    }
  }

  lemma {:induction false} SchedRunRealised(v: World, k: nat)
    ensures Leads(Embed(v), Run, Embed(Exec(v, Repeat(Run, k))))
    decreases k
  {
    hide SchedStep, LockStep, Embed;
    RepeatUnfolds(v, Run, k);
    if k == 0 {
      LeadsStep(Embed(v), Run);
    } else {
      SchedRealised(v);
      SchedRunRealised(SchedStep(v), k - 1);
      LeadsTrans(Embed(v), Run, Embed(SchedStep(v)), Embed(Exec(v, Repeat(Run, k))));
    }
  }

  // ---------- system calls ----------

  /** A step outside the sections. */
  lemma CallStepRealised(v: World, i: nat, call: Call)
    requires i < |v.threads|
    requires !v.threads[i].IssueEnter? && !v.threads[i].IssueCommit? && !v.threads[i].StopEnter?
    ensures LockStep(Embed(v), Thread(i, call)) == Embed(ThreadStep(v, i, call))
    ensures Leads(Embed(v), Thread(i, call), Embed(ThreadStep(v, i, call)))
  {
    hide SchedStep, LockExec, RunStep;
    PlainOfPut(v.threads, i, ThreadStep(v, i, call).threads[i]);
    LeadsStep(Embed(v), Thread(i, call));
  }

  lemma CallNext(w: LockedWorld, v: World, i: nat, call: Call, v': World)
    requires i < |v.threads| && Leads(w, Thread(i, call), Embed(v)) && v' == ThreadStep(v, i, call)
    requires !v.threads[i].IssueEnter? && !v.threads[i].IssueCommit? && !v.threads[i].StopEnter?
    ensures Leads(w, Thread(i, call), Embed(v'))
  {
    CallStepRealised(v, i, call);
    LeadsTrans(w, Thread(i, call), Embed(v), Embed(v'));
  }

  /** `w` with the mutex at caller `i`, which is at `x`. */
  function Holding(v: World, e: Elevator, i: nat, x: Caller): RawLocked
    requires i < |v.threads|
  {
    Locked(e, v.flags, v.sched, Out, HeldBy(i), PlainOf(v.threads)[i := x])
  }

  /** The lists and counters after `list_add_tail`, and after `waiting_on_floor++`. */
  function Added(e: Elevator, r: Checked): Elevator {
    e.(waiting := Enqueue(e, r.start, r.dest, r.kind).waiting)
  }

  function CountedHere(e: Elevator, r: Checked): Elevator {
    Added(e, r).(onFloor := Enqueue(e, r.start, r.dest, r.kind).onFloor)
  }

  lemma IssueAdds(v: World, i: nat, r: Checked, call: Call)
    requires i < |v.threads|
    ensures Holding(v, v.e, i, IssueAdd(r)).Shaped() && Holding(v, Added(v.e, r), i, IssueFloor(r)).Shaped()
    ensures LockStep(Holding(v, v.e, i, IssueAdd(r)), Thread(i, call)) == Holding(v, Added(v.e, r), i, IssueFloor(r))
  {
    hide SchedStep, RunStep, PlainStep, CallStep;
  }

  lemma IssueCounts(v: World, i: nat, r: Checked, call: Call)
    requires i < |v.threads| && Holding(v, Added(v.e, r), i, IssueFloor(r)).Shaped()
    ensures Holding(v, CountedHere(v.e, r), i, IssueTotal(r)).Shaped()
    ensures LockStep(Holding(v, Added(v.e, r), i, IssueFloor(r)), Thread(i, call))
            == Holding(v, CountedHere(v.e, r), i, IssueTotal(r))
  {
    hide SchedStep, RunStep;
  }

  /** What a request does once it has found `deactiving` clear under the lock. */
  lemma IssueQueues(v: World, i: nat, r: Checked, call: Call)
    requires i < |v.threads|
    ensures var w: RawLocked := Holding(v, v.e, i, IssueAdd(r));
            var v' := Resume(WithElevator(v, Enqueue(v.e, r.start, r.dest, r.kind)), i, Ready(0));
            w.Shaped() && Leads(w, Thread(i, call), Embed(v'))
  {
    hide SchedStep, LockExec, RunStep, LockStep, Holding, Added;
    var l := Thread(i, call);
    IssueAdds(v, i, r, call);
    IssueCounts(v, i, r, call);
    var w1: LockedWorld := Holding(v, v.e, i, IssueAdd(r));
    LeadsStep(w1, l);
    LeadsNext(w1, l, Holding(v, Added(v.e, r), i, IssueFloor(r)));
    IssueUnlocks(v, i, r, call, w1, Holding(v, CountedHere(v.e, r), i, IssueTotal(r)));
  }

  lemma IssueUnlocks(v: World, i: nat, r: Checked, call: Call, w1: LockedWorld, w3: LockedWorld)
    requires i < |v.threads| && Leads(w1, Thread(i, call), w3)
    requires w3 == Holding(v, CountedHere(v.e, r), i, IssueTotal(r))
    ensures var v' := Resume(WithElevator(v, Enqueue(v.e, r.start, r.dest, r.kind)), i, Ready(0));
            Leads(w1, Thread(i, call), Embed(v'))
  {
    hide SchedStep, LockExec, RunStep;
    var l, e' := Thread(i, call), Enqueue(v.e, r.start, r.dest, r.kind);
    var w4: LockedWorld := Holding(v, e', i, IssueLeave);
    assert LockStep(w3, l) == w4;
    LeadsNext(w1, l, w3);
    LeadsNext(w1, l, w4);
    PlainOfPut(v.threads, i, Ready(0));
    assert LockStep(w4, l) == Embed(Resume(WithElevator(v, e'), i, Ready(0)));
  }

  /** The section of a request, from its wait for the lock to its return. */
  lemma IssueRealised(v: World, i: nat, call: Call)
    requires i < |v.threads| && v.threads[i].IssueEnter?
    ensures var r := v.threads[i].request;
            var v' := if v.flags.deactiving then v else WithElevator(v, Enqueue(v.e, r.start, r.dest, r.kind));
            Leads(Embed(v), Thread(i, call), Embed(Resume(v', i, Ready(0))))
  {
    hide SchedStep, LockExec, RunStep;
    var l, r := Thread(i, call), v.threads[i].request;
    var w1: LockedWorld := Holding(v, v.e, i, IssueTest(r));
    assert LockStep(Embed(v), l) == w1;
    LeadsStep(Embed(v), l);
    LeadsNext(Embed(v), l, w1);
    PlainOfPut(v.threads, i, Ready(0));
    if v.flags.deactiving {
      var w2: LockedWorld := Holding(v, v.e, i, IssueLeave);
      assert LockStep(w1, l) == w2;
      LeadsNext(Embed(v), l, w2);
      assert LockStep(w2, l) == Embed(Resume(v, i, Ready(0)));
    } else {
      var v' := Resume(WithElevator(v, Enqueue(v.e, r.start, r.dest, r.kind)), i, Ready(0));
      IssueQueues(v, i, r, call);
      LeadsTrans(Embed(v), l, Holding(v, v.e, i, IssueAdd(r)), Embed(v'));
    }
  }

  /** The loop that empties the cabin, from any point of it. */
  lemma {:induction false} StopEmpties(v: World, e: Elevator, i: nat, bin: seq<Passenger>, call: Call)
    requires i < |v.threads| && e.motion == v.e.motion && e.floor == v.e.floor && e.next == v.e.next
    requires e.onboard != []
    ensures Holding(v, e, i, StopMove(bin)).Shaped()
    ensures var e' := e.(onboard := [], log := e.log.(discarded := e.log.discarded + (bin + e.onboard)));
            var w': RawLocked := Holding(v, e', i, StopMove(bin + e.onboard));
            w'.Shaped() && Leads(Holding(v, e, i, StopMove(bin)), Thread(i, call), w')
    decreases |e.onboard|
  {
    var l, o := Thread(i, call), e.onboard;
    var w: LockedWorld := Holding(v, e, i, StopMove(bin));
    MovedOne(bin, o);
    LeadsStep(w, l);
    if |o| > 1 {
      var e1: Elevator := e.(onboard := o[1..]);
      var w1: LockedWorld := Holding(v, e1, i, StopMove(bin + [o[0]]));
      assert LockStep(w, l) == w1;
      StopEmpties(v, e1, i, bin + [o[0]], call);
      var e' := e.(onboard := [], log := e.log.(discarded := e.log.discarded + (bin + o)));
      LeadsTrans(w, l, w1, Holding(v, e', i, StopMove(bin + o)));
    }
  }

  /** The section of a stop. */
  lemma StopRealised(v: World, i: nat, call: Call)
    requires i < |v.threads| && v.threads[i].StopEnter?
    ensures Leads(Embed(v), Thread(i, call), Embed(Resume(WithElevator(v, Discard(v.e)), i, StopFree(v.e.onboard))))
  {
    var l, o, e' := Thread(i, call), v.e.onboard, Discard(v.e);
    var w1: LockedWorld := Holding(v, v.e, i, StopMove([]));
    assert LockStep(Embed(v), l) == w1;
    LeadsStep(Embed(v), l);
    assert [] + o == o && (o == [] ==> v.e.log.discarded + o == v.e.log.discarded);
    var w2: LockedWorld := Holding(v, e', i, StopMove(o));
    if o != [] {
      StopEmpties(v, v.e, i, [], call);
      LeadsTrans(Embed(v), l, w1, w2);
    }
    StopUnlocks(v, i, call, Embed(v));
  }

  lemma StopUnlocks(v: World, i: nat, call: Call, w: LockedWorld)
    requires i < |v.threads| && Holding(v, Discard(v.e), i, StopMove(v.e.onboard)).Shaped()
    requires Leads(w, Thread(i, call), Holding(v, Discard(v.e), i, StopMove(v.e.onboard)))
    ensures Leads(w, Thread(i, call), Embed(Resume(WithElevator(v, Discard(v.e)), i, StopFree(v.e.onboard))))
  {
    hide LockExec, SchedStep, RunStep;
    var l, o, e' := Thread(i, call), v.e.onboard, Discard(v.e);
    var w2: LockedWorld := Holding(v, e', i, StopMove(o));
    var w3: LockedWorld := Holding(v, e', i, StopLeave(o));
    assert LockStep(w2, l) == w3;
    LeadsNext(w, l, w2);
    LeadsNext(w, l, w3);
    PlainOfPut(v.threads, i, StopFree(o));
    assert LockStep(w3, l) == Embed(Resume(WithElevator(v, e'), i, StopFree(o)));
  }

  /** Freeing the delete list of a stop. */
  lemma {:induction false} FreesRealised(v: World, i: nat, call: Call)
    requires i < |v.threads| && v.threads[i].StopFree?
    ensures Leads(Embed(v), Thread(i, call),
                  Embed(Resume(WithElevator(v, Free(v.e, v.threads[i].bin)), i, Ready(0))))
    decreases |v.threads[i].bin|
  {
    var bin := v.threads[i].bin;
    var v1 := ThreadStep(v, i, call);
    var last := Resume(WithElevator(v, Free(v.e, bin)), i, Ready(0));
    CallStepRealised(v, i, call);
    FreeTheRest(v, i, bin);
    if bin != [] {
      FreesRealised(v1, i, call);
      LeadsTrans(Embed(v), Thread(i, call), Embed(v1), Embed(last));
    }
  }

  lemma FreeTheRest(v: World, i: nat, bin: seq<Passenger>)
    requires i < |v.threads| && v.threads[i] == StopFree(bin)
    ensures var last := Resume(WithElevator(v, Free(v.e, bin)), i, Ready(0));
            if bin == [] then last == Resume(v, i, Ready(0))
            else
              var v1 := Resume(WithElevator(v, Free(v.e, [bin[0]])), i, StopFree(bin[1..]));
              last == Resume(WithElevator(v1, Free(v1.e, bin[1..])), i, Ready(0))
  {
    if bin == [] {
      assert v.e.log.freed + [] == v.e.log.freed;
    } else {
      assert (v.e.log.freed + [bin[0]]) + bin[1..] == v.e.log.freed + bin;
      assert v.threads[i := StopFree(bin[1..])][i := Ready(0)] == v.threads[i := Ready(0)];
    }
  }

  lemma StartRealised(v: World, i: nat)
    requires i < |v.threads| && v.threads[i].Ready? && !v.flags.started
    ensures Leads(Embed(v), Thread(i, CallStart), Embed(Whole(v, i, CallStart)))
  {
    var l := Thread(i, CallStart);
    var v1 := Resume(v, i, StartSetStarted);
    var v2 := Resume(v.(flags := v.flags.(started := true)), i, StartClearStop);
    LeadsStep(Embed(v), l);
    CallNext(Embed(v), v, i, CallStart, v1);
    CallNext(Embed(v), v1, i, CallStart, v2);
    CallNext(Embed(v), v2, i, CallStart, Whole(v, i, CallStart));
  }

  /** The unlocked part of a stop that is not refused. */
  lemma StopFlagsRealised(v: World, i: nat)
    requires i < |v.threads| && v.threads[i].Ready? && v.flags == Flags(true, false)
    ensures Leads(Embed(v), Thread(i, CallStop), Embed(Resume(v.(flags := Flags(false, true)), i, StopEnter)))
  {
    hide SchedStep, LockExec, LockStep, Embed;
    var l := Thread(i, CallStop);
    var v1 := Resume(v, i, StopTestFlag);
    var v2 := Resume(v, i, StopSetFlag);
    var v3 := Resume(v.(flags := Flags(true, true)), i, StopClearStarted);
    var v4 := Resume(v.(flags := Flags(false, true)), i, StopEnter);
    LeadsStep(Embed(v), l);
    CallNext(Embed(v), v, i, CallStop, v1);
    CallNext(Embed(v), v1, i, CallStop, v2);
    CallNext(Embed(v), v2, i, CallStop, v3);
    CallNext(Embed(v), v3, i, CallStop, v4);
  }

  lemma WholeStopRealised(v: World, i: nat)
    requires i < |v.threads| && v.threads[i].Ready? && v.flags == Flags(true, false)
    ensures Leads(Embed(v), Thread(i, CallStop), Embed(Whole(v, i, CallStop)))
  {
    hide LockExec, SchedStep, LockStep, Embed;
    var l := Thread(i, CallStop);
    var v4 := Resume(v.(flags := Flags(false, true)), i, StopEnter);
    var v5 := Resume(WithElevator(v4, Discard(v.e)), i, StopFree(v.e.onboard));
    StopFlagsRealised(v, i);
    StopRealised(v4, i, CallStop);
    LeadsTrans(Embed(v), l, Embed(v4), Embed(v5));
    FreesRealised(v5, i, CallStop);
    assert v5.threads[i := Ready(0)] == v.threads[i := Ready(0)];
    LeadsTrans(Embed(v), l, Embed(v5), Embed(Whole(v, i, CallStop)));
  }

  lemma WholeIssueRealised(v: World, i: nat, r: Request)
    requires i < |v.threads| && v.threads[i].Ready?
    requires v.flags.started && Acceptable(r.start, r.dest, r.kind)
    ensures Leads(Embed(v), Thread(i, CallIssue(r)), Embed(Whole(v, i, CallIssue(r))))
  {
    var l := Thread(i, CallIssue(r));
    var v1 := Resume(v, i, IssueEnter(r));
    CallStepRealised(v, i, CallIssue(r));
    IssueRealised(v1, i, CallIssue(r));
    assert v1.threads[i := Ready(0)] == v.threads[i := Ready(0)];
    LeadsTrans(Embed(v), l, Embed(v1), Embed(Whole(v, i, CallIssue(r))));
  }

  /** A whole call, with the mutex taken and released as the program does. */
  lemma WholeRealised(v: World, i: nat, call: Call)
    requires i < |v.threads| && v.threads[i].Ready?
    ensures Leads(Embed(v), Thread(i, call), Embed(Whole(v, i, call)))
  {
    if call.CallStart? && !v.flags.started {
      StartRealised(v, i);
    } else if call.CallIssue? && v.flags.started
              && Acceptable(call.request.start, call.request.dest, call.request.kind) {
      WholeIssueRealised(v, i, call.request);
    } else if call.CallStop? && v.flags == Flags(true, false) {
      WholeStopRealised(v, i);
    } else {
      CallStepRealised(v, i, call);
      if call.CallStop? && v.flags.started {
        var v1 := Resume(v, i, StopTestFlag);
        CallStepRealised(v1, i, call);
        LeadsTrans(Embed(v), Thread(i, call), Embed(v1), Embed(Whole(v, i, call)));
      }
    }
  }

  // ---------- runs ----------

  lemma EventRealised(v: World, ev: Event) returns (ls: seq<Label>)
    requires Gated(v)
    ensures LockExec(Embed(v), ls) == Embed(CoarseStep(v, ev))
  {
    var l := if ev.Tick? then Run else Thread(ev.i, ev.call);
    if ev.Tick? {
      SchedRealised(v);
    } else if ev.i < |v.threads| {
      WholeRealised(v, ev.i, ev.call);
    } else {
      LeadsStep(Embed(v), l);
    }
    var k: nat :| LockExec(Embed(v), Repeat(l, k)) == Embed(CoarseStep(v, ev));
    ls := Repeat(l, k);
  }

  /** Every run of whole calls is one the program can make with its mutex. */
  lemma {:induction false} CoarseRunsRealised(v: World, evs: seq<Event>) returns (ls: seq<Label>)
    requires Gated(v)
    ensures LockExec(Embed(v), ls) == Embed(CoarseExec(v, evs))
    decreases evs
  {
    if evs == [] {
      ls := [];
    } else {
      var first := EventRealised(v, evs[0]);
      StepKeepsGate(v, evs[0]);
      var rest := CoarseRunsRealised(CoarseStep(v, evs[0]), evs[1..]);
      LockSplit(Embed(v), first, rest);
      ls := first + rest;
    }
  }
}
