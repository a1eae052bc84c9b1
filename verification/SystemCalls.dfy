/** System calls that nothing interrupts: each as one step, what it does, and what may follow a stop. */
module SystemCalls {
  import opened Passengers
  import opened Cabin
  import opened Bookkeeping
  import opened AtomicMachine
  import opened Runs
  import opened Histories
  import opened Drain
  import opened Undisturbed

  datatype Returned = Returned(x: Shared, result: int)

  /** A whole call: what it leaves behind and returns. */
  function Outcome(x: Shared, call: Call): Returned {
    var e, f := x.e, x.flags;
    match call
    case CallStart => if f.started then Returned(x, 1) else Returned(x.(flags := Flags(true, false)), 0)
    case CallIssue(r) =>
      if !f.started || !Acceptable(r.start, r.dest, r.kind) then Returned(x, 1)
      else if f.deactiving then Returned(x, 0)
      else Returned(x.(e := Enqueue(e, r.start, r.dest, r.kind)), 0)
    case CallStop =>
      if !f.started || f.deactiving then Returned(x, 1)
      else Returned(Shared(Free(Discard(e), e.onboard), Flags(false, true)), 0)
  }

  function Whole(w: World, i: nat, call: Call): World
    requires i < |w.threads|
  {
    var o := Outcome(Shared(w.e, w.flags), call);
    w.(e := o.x.e, flags := o.x.flags, threads := w.threads[i := Ready(o.result)])
  }

  lemma {:induction false} FreesThreadBin(w: World, i: nat, call: Call)
    requires i < |w.threads| && w.threads[i].StopFree?
    ensures Reaches(w, Thread(i, call), Resume(WithElevator(w, Free(w.e, w.threads[i].bin)), i, Ready(0)))
    decreases |w.threads[i].bin|
  {
    hide SchedStep, Exec, Outcome;
    var l, bin := Thread(i, call), w.threads[i].bin;
    var w1 := ThreadStep(w, i, call);
    ReachesStep(w, l);
    if bin == [] {
      assert w.e.log.freed + [] == w.e.log.freed;
    } else {
      var last := Resume(WithElevator(w, Free(w.e, bin)), i, Ready(0));
      FreesThreadBin(w1, i, call);
      assert (w.e.log.freed + [bin[0]]) + bin[1..] == w.e.log.freed + bin;
      assert w.threads[i := StopFree(bin[1..])][i := Ready(0)] == w.threads[i := Ready(0)];
      assert Resume(WithElevator(w1, Free(w1.e, bin[1..])), i, Ready(0)) == last;
      ReachesTrans(w, l, w1, last);
    }
  }

  /** A whole call is what its thread does when nobody else runs. */
  lemma WholeIsUninterrupted(w: World, i: nat, call: Call)
    requires i < |w.threads| && w.threads[i].Ready?
    ensures Reaches(w, Thread(i, call), Whole(w, i, call))
  {
    hide SchedStep, Exec;
    var l, ts := Thread(i, call), w.threads;
    var w1 := Step(w, l);
    ReachesStep(w, l);
    if !w1.threads[i].Ready? {
      ReachesNext(w, l, w1);
      var w2 := Step(w1, l);
      if call.CallStart? {
        ReachesNext(w, l, w2);
        assert Step(w2, l) == Whole(w, i, call);
      } else if call.CallIssue? {
        if !w.flags.deactiving { ReachesNext(w, l, w2); }
      } else if !w.flags.deactiving {
        StopRuns(w, w2, i);
      }
    }
  }

  lemma StopRuns(w: World, w2: World, i: nat)
    requires i < |w.threads| && w2 == Resume(w, i, StopSetFlag)
    requires w.flags == Flags(true, false) && Reaches(w, Thread(i, CallStop), w2)
    ensures Reaches(w, Thread(i, CallStop), Whole(w, i, CallStop))
  {
    var l := Thread(i, CallStop);
    var w3 := Resume(w.(flags := Flags(true, true)), i, StopClearStarted);
    assert Step(w2, l) == w3;
    ReachesNext(w, l, w2);
    var w4 := Resume(w.(flags := Flags(false, true)), i, StopEnter);
    assert Step(w3, l) == w4;
    ReachesNext(w, l, w3);
    DiscardRuns(w, w4, i);
  }

  lemma DiscardRuns(w: World, w4: World, i: nat)
    requires i < |w.threads| && w4 == Resume(w.(flags := Flags(false, true)), i, StopEnter)
    requires w.flags == Flags(true, false) && Reaches(w, Thread(i, CallStop), w4)
    ensures Reaches(w, Thread(i, CallStop), Whole(w, i, CallStop))
  {
    var l := Thread(i, CallStop);
    var w5 := Step(w4, l);
    ReachesNext(w, l, w4);
    FreesThreadBin(w5, i, CallStop);
    assert w.threads[i := StopFree(w.e.onboard)][i := Ready(0)] == w.threads[i := Ready(0)];
    ReachesTrans(w, l, w5, Whole(w, i, CallStop));
  }

  // ---------- runs of whole calls ----------

  /** A step of the scheduler, or a whole call by thread `i`. */
  datatype Event = Tick | Served(i: nat, call: Call)

  function CoarseStep(w: World, ev: Event): World {
    match ev
    case Tick => SchedStep(w)
    case Served(i, call) => if i < |w.threads| then Whole(w, i, call) else w
  }

  function CoarseExec(w: World, evs: seq<Event>): World
    decreases evs
  {
    if evs == [] then w else CoarseExec(CoarseStep(w, evs[0]), evs[1..])
  }

  /** Between whole calls: none is in progress, and a running elevator is not being stopped. */
  ghost predicate Gated(w: World) {
    NoneInFlight(w) && (w.flags.started ==> !w.flags.deactiving)
  }

  lemma StepKeepsGate(w: World, ev: Event)
    requires Gated(w)
    ensures Gated(CoarseStep(w, ev))
  {
    if ev.Tick? { SchedFrame(w); }
  }

  lemma {:induction false} CoarseKeepsGate(w: World, evs: seq<Event>)
    requires Gated(w)
    ensures Gated(CoarseExec(w, evs))
    decreases evs
  {
    if evs != [] {
      StepKeepsGate(w, evs[0]);
      CoarseKeepsGate(CoarseStep(w, evs[0]), evs[1..]);
    }
  }

  lemma EventIsRun(w: World, ev: Event) returns (ls: seq<Label>)
    requires Gated(w)
    ensures Exec(w, ls) == CoarseStep(w, ev)
  {
    var l := if ev.Tick? then Run else Thread(ev.i, ev.call);
    ReachesStep(w, l);
    if ev.Served? && ev.i < |w.threads| {
      WholeIsUninterrupted(w, ev.i, ev.call);
    }
    var k: nat :| Exec(w, Repeat(l, k)) == CoarseStep(w, ev);
    ls := Repeat(l, k);
  }

  /** A run of whole calls is a run, so everything proved of runs holds of it. */
  lemma {:induction false} CoarseIsRun(w: World, evs: seq<Event>) returns (ls: seq<Label>)
    requires Gated(w)
    ensures Exec(w, ls) == CoarseExec(w, evs)
    decreases evs
  {
    if evs == [] {
      ls := [];
    } else {
      var first := EventIsRun(w, evs[0]);
      StepKeepsGate(w, evs[0]);
      var rest := CoarseIsRun(CoarseStep(w, evs[0]), evs[1..]);
      ExecSplit(w, first, rest);
      ls := first + rest;
    }
  }

  lemma CoarseAlways(n: nat, evs: seq<Event>)
    ensures Gated(CoarseExec(Init(n), evs)) && Inv(CoarseExec(Init(n), evs))
  {
    CoarseKeepsGate(Init(n), evs);
    var ls := CoarseIsRun(Init(n), evs);
    Always(n, ls);
  }

  lemma IssueOutcome(x: Shared, r: Request)
    requires x.flags.started ==> !x.flags.deactiving
    ensures var o := Outcome(x, CallIssue(r));
      && (o.result == 0 || o.result == 1)
      && (o.result == 0 <==> |o.x.e.log.accepted| == |x.e.log.accepted| + 1)
      && (o.result == 1 ==> o.x == x)
      && (o.result == 0 ==>
            x.flags.started && JoinedLast(x.e, o.x.e, Passenger(|x.e.log.accepted|, r.kind, r.start, r.dest)))
  {
  }

  /** `issue_request` returns 0 exactly when the elevator runs and the arguments are in range, and exactly
      when one more request was accepted; then the newcomer is last on the list of its floor and the
      other lists are as before, otherwise nothing changed. */
  lemma IssueReturnsZeroExactlyWhenQueued(n: nat, evs: seq<Event>, i: nat, r: Request)
    requires i < |CoarseExec(Init(n), evs).threads|
    ensures var w := CoarseExec(Init(n), evs);
            var w' := Whole(w, i, CallIssue(r));
            var ok := w'.threads[i] == Ready(0);
      && (ok <==> w.flags.started && (r.kind == 0 || r.kind == 1) && 1 <= r.start <= 10 && 1 <= r.dest <= 10)
      && (ok <==> |w'.e.log.accepted| == |w.e.log.accepted| + 1)
      && (!ok ==> w'.threads[i] == Ready(1) && w'.e == w.e)
      && (ok ==> w.flags.started && JoinedLast(w.e, w'.e, Passenger(|w.e.log.accepted|, r.kind, r.start, r.dest)))
  {
    var w: World := CoarseExec(Init(n), evs);
    CoarseKeepsGate(Init(n), evs);
    IssueOutcome(Shared(w.e, w.flags), r);
  }

  /** `p` is now last on the list of its floor, and the other lists are as before. */
  ghost predicate JoinedLast(e: Elevator, e': Elevator, p: Passenger) {
    && 1 <= p.start <= FLOORS
    && e'.waiting[p.start - 1] == e.waiting[p.start - 1] + [p]
    && forall f :: 0 <= f < FLOORS && f != p.start - 1 ==> e'.waiting[f] == e.waiting[f]
  }

  predicate NoStart(evs: seq<Event>) {
    forall k :: 0 <= k < |evs| ==> evs[k].Tick? || !evs[k].call.CallStart?
  }

  lemma {:induction false} StoppedAcceptsNobody(w: World, evs: seq<Event>)
    requires !w.flags.started && NoStart(evs)
    ensures !CoarseExec(w, evs).flags.started
    ensures CoarseExec(w, evs).e.log.accepted == w.e.log.accepted
    decreases evs
  {
    if evs != [] {
      assert forall k :: 0 <= k < |evs[1..]| ==> evs[1..][k] == evs[k + 1];
      StoppedAcceptsNobody(CoarseStep(w, evs[0]), evs[1..]);
    }
  }

  lemma {:induction false} CoarseSplit(w: World, front: seq<Event>, back: seq<Event>)
    ensures CoarseExec(w, front + back) == CoarseExec(CoarseExec(w, front), back)
    decreases front
  {
    if front == [] {
      assert [] + back == back;
    } else {
      assert (front + back)[1..] == front[1..] + back;
      CoarseSplit(CoarseStep(w, front[0]), front[1..], back);
    }
  }

  lemma AfterCall(n: nat, evs: seq<Event>, i: nat, call: Call)
    requires i < |CoarseExec(Init(n), evs).threads|
    ensures var w := Whole(CoarseExec(Init(n), evs), i, call); Gated(w) && Inv(w)
  {
    var w0, one := CoarseExec(Init(n), evs), [Served(i, call)];
    CoarseSplit(Init(n), evs, one);
    assert CoarseExec(w0, one) == CoarseExec(Whole(w0, i, call), []) == Whole(w0, i, call);
    CoarseAlways(n, evs + one);
  }

  /** Between a stop that succeeds and the next start, the waiting lists only shrink. */
  lemma ListsShrinkAfterStop(n: nat, evs: seq<Event>, i: nat, more: seq<Event>, p: Passenger)
    requires i < |CoarseExec(Init(n), evs).threads| && NoStart(more)
    requires Whole(CoarseExec(Init(n), evs), i, CallStop).threads[i] == Ready(0)
    ensures var w := Whole(CoarseExec(Init(n), evs), i, CallStop);
            p in Flat(CoarseExec(w, more).e.waiting) ==> p in Flat(w.e.waiting)
  {
    AfterCall(n, evs, i, CallStop);
    ShrinksFrom(Whole(CoarseExec(Init(n), evs), i, CallStop), more, p);
  }

  lemma ShrinksFrom(w: World, more: seq<Event>, p: Passenger)
    requires Gated(w) && Inv(w) && !w.flags.started && NoStart(more)
    ensures p in Flat(CoarseExec(w, more).e.waiting) ==> p in Flat(w.e.waiting)
  {
    CoarseGrows(w, more);
    StoppedAcceptsNobody(w, more);
    Shrinks(w.e, CoarseExec(w, more).e, p);
  }

  lemma CoarseGrows(w: World, evs: seq<Event>)
    requires Gated(w) && Inv(w)
    ensures Inv(CoarseExec(w, evs)) && Extends(w.e.log, CoarseExec(w, evs).e.log)
  {
    var ls := CoarseIsRun(w, evs);
    ExecKeeps(w, ls);
    ExecExtends(w, ls);
  }

  lemma Shrinks(e: Elevator, e': Elevator, p: Passenger)
    requires Conserved(e) && Conserved(e') && Extends(e.log, e'.log)
    requires e'.log.accepted == e.log.accepted
    ensures p in Flat(e'.waiting) ==> p in Flat(e.waiting)
  {
    Accounted(e, p);
    Accounted(e', p);
    Forward(e, e', p);
  }

  /** Some run leads to `w`. */
  ghost predicate Reachable(n: nat, w: World) {
    exists ls :: Exec(Init(n), ls) == w
  }

  lemma ReachableBy(n: nat, w: World, l: Label, w': World)
    requires Reachable(n, w) && Reaches(w, l, w')
    ensures Reachable(n, w')
  {
    var ls :| Exec(Init(n), ls) == w;
    var k: nat :| Exec(w, Repeat(l, k)) == w';
    ExecSplit(Init(n), ls, Repeat(l, k));
    assert Exec(Init(n), ls + Repeat(l, k)) == w';
  }

  lemma WholeKeeps(w: World, i: nat, call: Call)
    requires Inv(w) && i < |w.threads| && w.threads[i].Ready?
    ensures Inv(Whole(w, i, call))
  {
    WholeIsUninterrupted(w, i, call);
    var k: nat :| Exec(w, Repeat(Thread(i, call), k)) == Whole(w, i, call);
    ExecKeeps(w, Repeat(Thread(i, call), k));
  }
}
