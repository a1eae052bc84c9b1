/** Requests that passed the test of line 112 before a stop: when they can still queue a passenger. */
module LateRequests {
  import opened AtomicMachine
  import opened Runs
  import opened Undisturbed
  import opened Clearing

  /** No start is in progress. */
  ghost predicate NoStarter(w: World) {
    forall i :: 0 <= i < |w.threads| ==> !w.threads[i].StartSetStarted? && !w.threads[i].StartClearStop?
  }

  /** A request has read `started` and not yet tested `deactiving`. */
  ghost predicate SomePastGate(w: World) {
    exists i :: 0 <= i < |w.threads| && w.threads[i].IssueEnter?
  }

  /** A request has found `deactiving` clear and not yet queued its passenger. */
  ghost predicate SomePastTest(w: World) {
    exists i :: 0 <= i < |w.threads| && w.threads[i].IssueCommit?
  }

  predicate NoStartCall(l: Label) {
    l.Run? || !l.call.CallStart?
  }

  predicate NoStartCalls(ls: seq<Label>) {
    forall k :: 0 <= k < |ls| ==> NoStartCall(ls[k])
  }

  // ---------- when nobody can be queued any more ----------

  /** Stopped, and no request is under way. */
  ghost predicate ShutOut(w: World) {
    !w.flags.started && NoStarter(w) && !SomePastGate(w) && !SomePastTest(w)
  }

  /** Stopped, the flag stays set for good, and no request has been let through. */
  ghost predicate Stalled(w: World) {
    w.flags == Flags(false, true) && NoStarter(w) && !SomePastTest(w) && !CanClear(w)
  }

  /** One thread's step, seen from the list of threads. */
  lemma ThreadMoves(w: World, i: nat, call: Call)
    requires i < |w.threads| && !w.threads[i].IssueCommit?
    ensures var w' := ThreadStep(w, i, call);
      && w'.threads == w.threads[i := w'.threads[i]]
      && w'.e.log.accepted == w.e.log.accepted && w'.e.numWaiting == w.e.numWaiting
  {
  }

  /** The scheduler starts nothing and accepts nobody. */
  lemma RunAccepts(w: World)
    ensures var w' := SchedStep(w);
      && w'.threads == w.threads && w'.flags.started == w.flags.started && w'.e.log.accepted == w.e.log.accepted
  {
  }

  lemma StepStaysShut(w: World, l: Label)
    requires ShutOut(w) && NoStartCall(l)
    ensures ShutOut(Step(w, l)) && Step(w, l).e.log.accepted == w.e.log.accepted
  {
    hide SchedStep;
    if l.Run? {
      RunAccepts(w);
    } else if l.i < |w.threads| {
      assert !w.threads[l.i].IssueEnter? && !w.threads[l.i].IssueCommit?;
      ThreadMoves(w, l.i, l.call);
    }
  }

  lemma ThreadStaysStalled(w: World, i: nat, call: Call)
    requires i < |w.threads| && Stalled(w) && !call.CallStart?
    ensures Stalled(ThreadStep(w, i, call))
    ensures ThreadStep(w, i, call).e.log.accepted == w.e.log.accepted
  {
    assert !w.threads[i].IssueCommit?;
    ThreadMoves(w, i, call);
  }

  lemma StepStaysStalled(w: World, l: Label)
    requires Inv(w) && Stalled(w) && NoStartCall(l)
    ensures Stalled(Step(w, l)) && Step(w, l).e.log.accepted == w.e.log.accepted
  {
    match l
    case Run =>
      StepHangs(w);
      StepLater(w);
    case Thread(i, call) => if i < |w.threads| { ThreadStaysStalled(w, i, call); }
  }

  lemma {:induction false} NoneGetsIn(w: World, ls: seq<Label>)
    requires Inv(w) && (ShutOut(w) || Stalled(w)) && NoStartCalls(ls)
    ensures Exec(w, ls).e.log.accepted == w.e.log.accepted
    decreases ls
  {
    if ls != [] {
      assert forall k :: 0 <= k < |ls[1..]| ==> ls[1..][k] == ls[k + 1];
      StepKeeps(w, ls[0]);
      if ShutOut(w) { StepStaysShut(w, ls[0]); } else { StepStaysStalled(w, ls[0]); }
      NoneGetsIn(Step(w, ls[0]), ls[1..]);
    }
  }

  // ---------- when somebody can ----------

  ghost predicate Queues(w: World, ls: seq<Label>) {
    NoStartCalls(ls) && Exec(w, ls).e.log.accepted != w.e.log.accepted
  }

  lemma ExecOne(w: World, l: Label)
    ensures Exec(w, [l]) == Step(w, l)
  {
    assert [l][1..] == [] && Exec(Step(w, l), []) == Step(w, l);
  }

  lemma CommitQueues(w: World, i: nat)
    requires i < |w.threads| && w.threads[i].IssueCommit?
    ensures Queues(w, [Thread(i, CallStop)])
  {
    ExecOne(w, Thread(i, CallStop));
    assert |Step(w, Thread(i, CallStop)).e.log.accepted| == |w.e.log.accepted| + 1;
  }

  lemma EnterQueues(w: World, i: nat)
    requires i < |w.threads| && w.threads[i].IssueEnter? && !w.flags.deactiving
    ensures Queues(w, [Thread(i, CallStop)] + [Thread(i, CallStop)])
  {
    var l := Thread(i, CallStop);
    ExecOne(w, l);
    CommitQueues(Step(w, l), i);
    ExecSplit(w, [l], [l]);
  }

  /** Once the elevator is stopped and no start is in progress, a further passenger can be queued
      without a start if and only if a request is past its test of `deactiving`; or one is past its
      test of `started`, and `deactiving` is clear or the scheduler can still clear it. */
  lemma LateRequestsExactly(w: World)
    requires Inv(w) && !w.flags.started && NoStarter(w)
    ensures (exists ls :: Queues(w, ls))
            <==> SomePastTest(w) || (SomePastGate(w) && (w.flags.deactiving ==> CanClear(w)))
  {
    if SomePastTest(w) {
      var i :| 0 <= i < |w.threads| && w.threads[i].IssueCommit?;
      CommitQueues(w, i);
    } else if SomePastGate(w) && (w.flags.deactiving ==> CanClear(w)) {
      GateQueues(w);
    } else {
      forall ls | NoStartCalls(ls)
        ensures !Queues(w, ls)
      {
        NoneGetsIn(w, ls);
      }
    }
  }

  lemma GateQueues(w: World)
    requires Inv(w) && SomePastGate(w) && (w.flags.deactiving ==> CanClear(w))
    ensures exists ls :: Queues(w, ls)
  {
    hide SchedStep, Exec, Inv;
    var i :| 0 <= i < |w.threads| && w.threads[i].IssueEnter?;
    var two := [Thread(i, CallStop)] + [Thread(i, CallStop)];
    if w.flags.deactiving {
      var w' := Clears(w);
      var k: nat :| Exec(w, Repeat(Run, k)) == w';
      EnterQueues(w', i);
      ExecSplit(w, Repeat(Run, k), two);
      assert Queues(w, Repeat(Run, k) + two);
    } else {
      EnterQueues(w, i);
    }
  }
}
