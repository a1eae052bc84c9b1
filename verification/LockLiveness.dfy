/** What the converse of the refinement gives: runs of the program with its mutex, and that they drain. */
module LockLiveness {
  import opened Cabin
  import opened Critical
  import opened AtomicMachine
  import opened Runs
  import opened Drain
  import opened Undisturbed
  import opened SystemCalls
  import opened LockMachine
  import opened Refinement
  import opened LockRuns
  import opened Realisation

  /** Some run of the program leads to `w`. */
  ghost predicate Arrives(n: nat, w: LockedWorld) {
    exists ls :: LockExec(Start(n), ls) == w
  }

  lemma ArrivesBy(n: nat, w: LockedWorld, l: Label, w': LockedWorld)
    requires Arrives(n, w) && Leads(w, l, w')
    ensures Arrives(n, w')
  {
    var ls :| LockExec(Start(n), ls) == w;
    var k: nat :| LockExec(w, Repeat(l, k)) == w';
    LockSplit(Start(n), ls, Repeat(l, k));
    assert LockExec(Start(n), ls + Repeat(l, k)) == w';
  }

  lemma ArrivesFirst(n: nat)
    ensures Arrives(n, Embed(Init(n)))
  {
    assert LockExec(Start(n), []) == Start(n);
    assert PlainOf(Init(n).threads) == Start(n).callers;
  }

  lemma ArrivesWhole(n: nat, v: World, i: nat, call: Call)
    requires i < |v.threads| && v.threads[i].Ready? && Arrives(n, Embed(v))
    ensures Arrives(n, Embed(Whole(v, i, call)))
  {
    WholeRealised(v, i, call);
    ArrivesBy(n, Embed(v), Thread(i, call), Embed(Whole(v, i, call)));
  }

  lemma FreeState(n: nat, ls: seq<Label>) returns (v: World)
    requires LockExec(Start(n), ls).mutex == Unlocked
    ensures var w := LockExec(Start(n), ls);
      && LockInv(w) && w == Embed(v) && Inv(v) && Abs(w) == v
      && forall i :: 0 <= i < |v.threads| ==> w.callers[i] == Plain(v.threads[i]) && !v.threads[i].IssueCommit?
  {
    hide SchedStep, LockExec, Exec, Finish, Inv;
    var w := LockExec(Start(n), ls);
    var other := LocksRefineSections(n, ls);
    var large := FreeStatesAreAtomic(n, ls);
    v := Exec(Init(n), large);
    assert PlainOf(v.threads) == w.callers;
    AbsEmbed(v);
  }

  lemma ArrivedInv(n: nat, v: World)
    requires Arrives(n, Embed(v))
    ensures Inv(v)
  {
    var ls :| LockExec(Start(n), ls) == Embed(v);
    var v' := FreeState(n, ls);
    SameEmbed(v, v');
  }

  lemma SameEmbed(v: World, v': World)
    requires Embed(v) == Embed(v')
    ensures v == v'
  {
    var ts, ts' := PlainOf(v.threads), PlainOf(v'.threads);
    assert forall i :: 0 <= i < |ts| ==> ts[i] == Plain(v.threads[i]) && ts'[i] == Plain(v'.threads[i]);
    assert v.threads == v'.threads;
  }

  // ---------- draining ----------

  lemma UnloadServes(c: Section)
    requires InUnload(c.x) && !c.x.UScan?
    ensures var c' := UnloadMicro(c);
      && c'.e.numWaiting == c.e.numWaiting && BoardingTotalDebt(c'.x) == BoardingTotalDebt(c.x) == 0
      && c'.e.loads - SectionDebt(c'.x) <= c.e.loads - SectionDebt(c.x)
      && c'.e.log.rounds == c.e.log.rounds && c'.e.log.discarded == c.e.log.discarded
      && c'.e.log.accepted == c.e.log.accepted
  {
  }

  lemma LoadServes(c: Section)
    requires InLoad(c.x) && !c.x.LScan?
    ensures var c' := LoadMicro(c);
      && 2 * (c'.e.numWaiting - BoardingTotalDebt(c'.x)) + c'.e.loads - SectionDebt(c'.x)
         <= 2 * (c.e.numWaiting - BoardingTotalDebt(c.x)) + c.e.loads - SectionDebt(c.x)
      && c'.e.log.rounds == c.e.log.rounds && c'.e.log.discarded == c.e.log.discarded
      && c'.e.log.accepted == c.e.log.accepted
  {
  }

  /** Completing a section serves people, and leaves the history of requests and stops alone. */
  lemma {:induction false} FinishServes(c: Section)
    ensures var e := Finish(c).e;
      && 2 * e.numWaiting + e.loads
         <= 2 * (c.e.numWaiting - BoardingTotalDebt(c.x)) + c.e.loads - SectionDebt(c.x)
      && e.log.rounds == c.e.log.rounds && e.log.discarded == c.e.log.discarded
      && e.log.accepted == c.e.log.accepted
    decreases StepsLeft(c.x)
  {
    if c.x.LScan? {
      BoardCounts(Queue(c.e)[c.x.i..], c.e.floor, c.e.loads, c.e.status);
    } else if InUnload(c.x) && !c.x.UScan? {
      UnloadServes(c);
      FinishServes(UnloadMicro(c));
    } else if InLoad(c.x) {
      LoadServes(c);
      FinishServes(LoadMicro(c));
    }
  }

  lemma AbsServes(w: LockedWorld)
    requires LockInv(w) && !w.mutex.HeldBy?
    ensures var e := Abs(w).e;
      && 2 * e.numWaiting + e.loads <= 2 * w.e.numWaiting + w.e.loads
      && e.log.rounds == w.e.log.rounds && e.log.discarded == w.e.log.discarded
      && e.log.accepted == w.e.log.accepted
  {
    if w.inside != Out { FinishServes(At(w.e, w.sched, w.inside)); }
  }

  /** The scheduler was left alone in `w` and got to `w'`, with everybody ever accepted delivered. */
  ghost predicate LockDrained(w: LockedWorld, w': LockedWorld) {
    && w'.mutex == Unlocked && w'.sched.pc == TestWaiting && Quiet(w'.e)
    && w'.e.log.rounds <= w.e.log.rounds + 1 + 18 * (2 * w.e.numWaiting + w.e.loads)
    && w'.e.serviced == |w.e.log.accepted|
  }

  lemma LockDrainsFrom(w: LockedWorld) returns (w': LockedWorld)
    requires LockInv(w) && Inv(Abs(w)) && !w.mutex.HeldBy? && w.e.log.discarded == []
    ensures Leads(w, Run, w') && LockDrained(w, w')
  {
    var v := Abs(w);
    AbsServes(w);
    Honest(v);
    var v' := DrainsFrom(v);
    var j: nat :| Exec(v, Repeat(Run, j)) == v';
    SchedRunRealised(v, j);
    SchedulerFrees(w);
    w' := Embed(v');
    LeadsTrans(w, Run, Embed(v), w');
  }

  /** Wherever a run leaves the scheduler, inside a section or out, unless a caller holds the mutex,
      and provided `loads` is the number of riders, up to the node in hand: left alone, the scheduler
      takes and releases the mutex as the program does, and delivers everybody in time. */
  lemma LockedRunsDrain(n: nat, ls: seq<Label>)
    requires var w := LockExec(Start(n), ls);
      !w.mutex.HeldBy? && w.e.loads == |w.e.onboard| + LoadsDebt(w)
    ensures var w := LockExec(Start(n), ls);
      exists k: nat :: var w' := LockExec(w, Repeat(Run, k));
        && w'.mutex == Unlocked && w'.sched.pc == TestWaiting && Quiet(w'.e)
        && w'.e.log.rounds <= w.e.log.rounds + 1 + 18 * (2 * w.e.numWaiting + w.e.loads)
        && w'.e.serviced == |w.e.log.accepted|
  {
    var w := LockExec(Start(n), ls);
    LockAlways(n, ls);
    var w' := LockDrainsFrom(w);
    var k: nat :| LockExec(w, Repeat(Run, k)) == w';
    assert LockDrained(w, LockExec(w, Repeat(Run, k)));
  }

  /** What holds in every state of every run. */
  lemma LockAlways(n: nat, ls: seq<Label>)
    ensures var w := LockExec(Start(n), ls);
      && LockInv(w) && Inv(Abs(w))
      && (w.e.loads == |w.e.onboard| + LoadsDebt(w) <==> w.e.log.discarded == [])
      && (w.e.log.discarded != [] ==> !Quiet(w.e))
  {
    var large := LocksRefineSections(n, ls);
    Always(n, large);
    LoadsUpToHolder(n, ls);
    CountersUpToHolder(n, ls, 0);
  }

  lemma {:induction false} RunsKeepDiscarded(w: LockedWorld, k: nat)
    ensures LockExec(w, Repeat(Run, k)).e.log.discarded == w.e.log.discarded
    decreases k
  {
    LockRepeats(w, Run, k);
    if k > 0 {
      RunKeepsDiscarded(w);
      RunsKeepDiscarded(LockStep(w, Run), k - 1);
    }
  }

  lemma RunKeepsDiscarded(w: LockedWorld)
    ensures LockStep(w, Run).e.log.discarded == w.e.log.discarded
  {
    if w.inside == Out && w.sched.pc != Unloading && w.sched.pc != Boarding {
      SchedFrame(World(w.e, w.flags, w.sched, []));
    }
  }

  lemma LockRepeats(w: LockedWorld, l: Label, k: nat)
    ensures LockExec(w, Repeat(l, k)) == if k == 0 then w else LockExec(LockStep(w, l), Repeat(l, k - 1))
  {
    if k > 0 {
      assert Repeat(l, k)[1..] == Repeat(l, k - 1) && Repeat(l, k)[0] == l;
    }
  }

  /** Somebody discarded is missed for ever. */
  lemma NeverDrained(n: nat, ls: seq<Label>, k: nat)
    requires LockExec(Start(n), ls).e.log.discarded != []
    ensures !Quiet(LockExec(LockExec(Start(n), ls), Repeat(Run, k)).e)
  {
    RunsKeepDiscarded(LockExec(Start(n), ls), k);
    LockSplit(Start(n), ls, Repeat(Run, k));
    LockAlways(n, ls + Repeat(Run, k));
  }

  /** And otherwise it never does. */
  lemma LockedRunsDrainExactlyWhen(n: nat, ls: seq<Label>)
    requires !LockExec(Start(n), ls).mutex.HeldBy?
    ensures var w := LockExec(Start(n), ls);
      (exists k: nat :: Quiet(LockExec(w, Repeat(Run, k)).e)) <==> w.e.loads == |w.e.onboard| + LoadsDebt(w)
  {
    var w := LockExec(Start(n), ls);
    LockAlways(n, ls);
    if w.e.log.discarded == [] {
      LockedRunsDrain(n, ls);
    } else {
      forall k: nat
        ensures !Quiet(LockExec(w, Repeat(Run, k)).e)
      {
        NeverDrained(n, ls, k);
      }
    }
  }

  // ---------- a caller holding the mutex ----------

  /** How far the holder is from giving the mutex back. */
  function HoldLeft(e: Elevator, x: Caller): nat {
    match x
    case Plain(_) => 0
    case IssueTest(_) => 5
    case IssueAdd(_) => 4
    case IssueFloor(_) => 3
    case IssueTotal(_) => 2
    case IssueLeave => 1
    case StopMove(_) => |e.onboard| + 2
    case StopLeave(_) => 1
  }

  /** A stop inside its section has still somebody to take off. */
  predicate Taking(w: LockedWorld, i: nat) {
    i < |w.callers| && w.callers[i].StopMove? && w.e.onboard != []
  }

  /** One step of the holder. */
  lemma HolderMoves(w: LockedWorld, i: nat)
    requires LockInv(w) && i < |w.callers| && w.mutex == HeldBy(i)
    ensures var w' := LockStep(w, Thread(i, CallStop));
      && |w'.callers| == |w.callers|
      && (w'.mutex == Unlocked
          || (w'.mutex == HeldBy(i) && HoldLeft(w'.e, w'.callers[i]) < HoldLeft(w.e, w.callers[i])))
      && (!Taking(w, i) ==> w'.e.log.discarded == w.e.log.discarded && !Taking(w', i))
  {
    hide SchedStep, RunStep;
  }

  /** The holder's own steps free the mutex, and discard nobody unless they belong to a stop. */
  lemma {:induction false} HolderFrees(w: LockedWorld, i: nat) returns (w': LockedWorld)
    requires LockInv(w) && Inv(Abs(w)) && i < |w.callers| && w.mutex == HeldBy(i)
    ensures Leads(w, Thread(i, CallStop), w') && LockInv(w') && Inv(Abs(w')) && w'.mutex == Unlocked
    ensures !Taking(w, i) ==> w'.e.log.discarded == w.e.log.discarded
    decreases HoldLeft(w.e, w.callers[i])
  {
    var l := Thread(i, CallStop);
    var w1 := LockStep(w, l);
    HolderMoves(w, i);
    StepSimulates(w, l);
    StepKeeps(Abs(w), l);
    LeadsStep(w, l);
    if w1.mutex == Unlocked {
      w' := w1;
    } else {
      w' := HolderFrees(w1, i);
      LeadsTrans(w, l, w1, w');
    }
  }

  /** Somebody was discarded, or is about to be. */
  ghost predicate Lossy(w: LockedWorld, i: nat) {
    w.e.log.discarded != [] || (w.mutex == HeldBy(i) && Taking(w, i))
  }

  /** With the mutex at a caller, the scheduler takes nobody on or off. */
  lemma RunKeepsCabin(w: LockedWorld)
    requires w.mutex.HeldBy? && w.inside == Out
    ensures LockStep(w, Run).e.onboard == w.e.onboard && LockStep(w, Run).mutex == w.mutex
    ensures LockStep(w, Run).callers == w.callers && LockStep(w, Run).inside == Out
    ensures LockStep(w, Run).e.log.accepted == w.e.log.accepted
  {
    if w.sched.pc != Unloading && w.sched.pc != Boarding {
      SchedFrame(World(w.e, w.flags, w.sched, []));
    }
  }

  lemma RunKeepsFlag(w: LockedWorld, i: nat)
    requires LockInv(w) && EmptyWhenFound(Abs(w)) && w.mutex == HeldBy(i) && Taking(w, i)
    ensures LockStep(w, Run).flags == w.flags
  {
    assert Abs(w).e.onboard != [] && Abs(w).sched == w.sched;
  }

  lemma CallersKeepDiscarded(w: LockedWorld, i: nat, call: Call)
    requires w.e.log.discarded != []
    ensures LockStep(w, Thread(i, call)).e.log.discarded != []
  {
    hide SchedStep, RunStep;
  }

  lemma TakerStaysLossy(w: LockedWorld, i: nat, call: Call)
    requires LockInv(w) && w.mutex == HeldBy(i) && Taking(w, i)
    ensures Lossy(LockStep(w, Thread(i, call)), i)
  {
    hide SchedStep, RunStep, PlainStep;
  }

  lemma RunStaysLossy(w: LockedWorld, i: nat)
    requires LockInv(w) && Lossy(w, i)
    ensures Lossy(LockStep(w, Run), i)
  {
    hide SchedStep, LockStep;
    RunKeepsDiscarded(w);
    if w.mutex == HeldBy(i) { RunKeepsCabin(w); }
  }

  lemma StepStaysLossy(w: LockedWorld, i: nat, l: Label)
    requires LockInv(w) && Lossy(w, i) && (l.Run? || l.i == i)
    ensures Lossy(LockStep(w, l), i)
  {
    hide LockStep;
    if l.Run? {
      RunStaysLossy(w, i);
    } else if w.e.log.discarded != [] {
      CallersKeepDiscarded(w, i, l.call);
    } else {
      TakerStaysLossy(w, i, l.call);
    }
  }

  lemma {:induction false} StaysLossy(w: LockedWorld, i: nat, l: Label, k: nat)
    requires LockInv(w) && Lossy(w, i) && (l.Run? || l.i == i)
    ensures LockInv(LockExec(w, Repeat(l, k))) && Lossy(LockExec(w, Repeat(l, k)), i)
    decreases k
  {
    hide SchedStep, LockStep, LockInv, Lossy;
    LockRepeats(w, l, k);
    if k > 0 {
      StepStaysLossy(w, i, l);
      StepSimulates(w, l);
      StaysLossy(LockStep(w, l), i, l, k - 1);
    }
  }

  ghost predicate DrainedAfter(w: LockedWorld, i: nat, j: nat, k: nat) {
    Quiet(LockExec(LockExec(w, Repeat(Thread(i, CallStop), j)), Repeat(Run, k)).e)
  }

  /** While a caller holds the mutex the scheduler has to wait for it. Let it go on until the mutex is
      free, and then the scheduler: the building drains if and only if nobody was discarded, and the
      holder is not a stop with somebody still to take off. */
  lemma HeldRunsDrainExactlyWhen(n: nat, ls: seq<Label>, i: nat)
    requires var w := LockExec(Start(n), ls); i < |w.callers| && w.mutex == HeldBy(i)
    ensures var w := LockExec(Start(n), ls);
      (exists j: nat, k: nat :: DrainedAfter(w, i, j, k))
      <==> w.e.log.discarded == [] && !(w.callers[i].StopMove? && w.e.onboard != [])
  {
    var w := LockExec(Start(n), ls);
    LockAlways(n, ls);
    if Lossy(w, i) {
      forall j: nat, k: nat
        ensures !DrainedAfter(w, i, j, k)
      {
        HeldNeverDrained(n, ls, i, j, k);
      }
    } else {
      var w1 := HolderFrees(w, i);
      var w' := LockDrainsFrom(w1);
      var j: nat :| LockExec(w, Repeat(Thread(i, CallStop), j)) == w1;
      var k: nat :| LockExec(w1, Repeat(Run, k)) == w';
      assert DrainedAfter(w, i, j, k);
    }
  }

  lemma HeldNeverDrained(n: nat, ls: seq<Label>, i: nat, j: nat, k: nat)
    requires var w := LockExec(Start(n), ls); LockInv(w) && Lossy(w, i)
    ensures !DrainedAfter(LockExec(Start(n), ls), i, j, k)
  {
    var w, first, last := LockExec(Start(n), ls), Repeat(Thread(i, CallStop), j), Repeat(Run, k);
    StaysLossy(w, i, Thread(i, CallStop), j);
    StaysLossy(LockExec(w, first), i, Run, k);
    LockSplit(Start(n), ls, first);
    LockSplit(Start(n), ls + first, last);
    LockAlways(n, (ls + first) + last);
  }
}
