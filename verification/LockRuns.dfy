/** What the refinement gives for every interleaving of the small steps. */
module LockRuns {
  import opened Passengers
  import opened Cabin
  import opened Critical
  import opened AtomicMachine
  import opened Runs
  import opened LockMachine
  import opened Refinement

  /** Every interleaving of small steps is matched by large steps, state for state. */
  lemma LocksRefineSections(n: nat, ls: seq<Label>) returns (large: seq<Label>)
    ensures LockInv(LockExec(Start(n), ls))
    ensures Abs(LockExec(Start(n), ls)) == Exec(Init(n), large)
  {
    assert AbsCallers(Start(n).e, Start(n).callers) == Init(n).threads;
    large := RunRefines(Start(n), ls);
  }

  /** Mutual exclusion, whatever the interleaving. */
  lemma MutualExclusion(n: nat, ls: seq<Label>, i: nat, j: nat)
    requires i < |LockExec(Start(n), ls).callers| && j < |LockExec(Start(n), ls).callers|
    ensures var w := LockExec(Start(n), ls);
      && (w.inside != Out ==> w.callers[i].Plain?)
      && (!w.callers[i].Plain? && !w.callers[j].Plain? ==> i == j)
      && (w.mutex == Unlocked ==> w.inside == Out && w.callers[i].Plain?)
  {
    var large := LocksRefineSections(n, ls);
  }

  // ---------- the counters ----------

  /** By how much `waiting_on_floor[f]` differs from the length of its list in mid-section. */
  function FloorDebt(w: LockedWorld, f: nat): int {
    if w.mutex.HeldBy? && w.mutex.i < |w.callers| then
      var x := w.callers[w.mutex.i];
      if x.IssueFloor? && f == x.request.start - 1 then -1 else 0
    else BoardingDebt(w.inside, f == w.e.floor - 1)
  }

  function BoardingDebt(x: Inside, here: bool): int {
    if (x.LStatus? || x.LLoads? || x.LFloor?) && here then 1 else 0
  }

  /** By how much `num_waiting` differs from the number of people waiting. */
  function TotalDebt(w: LockedWorld): int {
    if w.mutex.HeldBy? && w.mutex.i < |w.callers| then
      var x := w.callers[w.mutex.i];
      if x.IssueFloor? || x.IssueTotal? then -1 else 0
    else BoardingTotalDebt(w.inside)
  }

  function BoardingTotalDebt(x: Inside): int {
    if x.LStatus? || x.LLoads? || x.LFloor? || x.LTotal? then 1 else 0
  }

  function FloorGap(e: Elevator, f: nat): int
    requires f < FLOORS
  {
    e.onFloor[f] - |e.waiting[f]|
  }

  function TotalGap(e: Elevator): int {
    e.numWaiting - |Flat(e.waiting)|
  }

  lemma ScanGap(e: Elevator, i: nat, f: nat)
    requires i <= |Queue(e)| && f < FLOORS
    ensures FloorGap(LoadFrom(e, i), f) == FloorGap(e, f)
    ensures TotalGap(LoadFrom(e, i)) == TotalGap(e)
  {
    hide Flat;
    var q := Queue(e);
    var r := Board(q[i..], e.floor, e.loads, e.status);
    BoardCounts(q[i..], e.floor, e.loads, e.status);
    FlatUpdate(e.waiting, e.floor - 1, q[..i] + r.left);
  }

  /** Each small step moves the gap exactly as the debt says. */
  lemma MicroGap(c: Section, f: nat)
    requires InLoad(c.x) && f < FLOORS
    ensures var c' := LoadMicro(c);
      && c'.e.floor == c.e.floor
      && FloorGap(c'.e, f) - BoardingDebt(c'.x, f == c.e.floor - 1)
         == FloorGap(c.e, f) - BoardingDebt(c.x, f == c.e.floor - 1)
      && TotalGap(c'.e) - BoardingTotalDebt(c'.x) == TotalGap(c.e) - BoardingTotalDebt(c.x)
  {
    if c.x.LMove? {
      FlatUpdate(c.e.waiting, c.e.floor - 1, Without(Queue(c.e), c.x.i));
    }
  }

  lemma {:induction false} FinishGap(c: Section, f: nat)
    requires f < FLOORS
    ensures FloorGap(Finish(c).e, f) == FloorGap(c.e, f) - BoardingDebt(c.x, f == c.e.floor - 1)
    ensures TotalGap(Finish(c).e) == TotalGap(c.e) - BoardingTotalDebt(c.x)
    decreases StepsLeft(c.x)
  {
    hide LoadFrom;
    if c.x.LScan? {
      ScanGap(c.e, c.x.i, f);
    } else if InLoad(c.x) {
      MicroGap(c, f);
      FinishGap(LoadMicro(c), f);
    } else if InUnload(c.x) && !c.x.UScan? {
      FinishGap(UnloadMicro(c), f);
    }
  }

  lemma UndoGap(e: Elevator, x: Caller, f: nat)
    requires f < FLOORS && Halfway(e, x)
    ensures FloorGap(Undo(e, x), f) == FloorGap(e, f) + (if x.IssueFloor? && f == x.request.start - 1 then 1 else 0)
    ensures TotalGap(Undo(e, x)) == TotalGap(e) + (if x.IssueFloor? || x.IssueTotal? then 1 else 0)
  {
    if x.IssueFloor? || x.IssueTotal? {
      var q := e.waiting[x.request.start - 1];
      FlatUpdate(e.waiting, x.request.start - 1, q[..|q| - 1]);
    }
  }

  /** In every state of every interleaving the counters agree with the lists, up to what the holder of
      the mutex has still to do; when the mutex is free they agree exactly. */
  lemma CountersUpToHolder(n: nat, ls: seq<Label>, f: nat)
    requires f < FLOORS
    ensures var w := LockExec(Start(n), ls);
      && w.e.onFloor[f] == |w.e.waiting[f]| + FloorDebt(w, f)
      && w.e.numWaiting == |Flat(w.e.waiting)| + TotalDebt(w)
      && (w.mutex == Unlocked ==> w.e.onFloor[f] == |w.e.waiting[f]| && w.e.numWaiting == |Flat(w.e.waiting)|)
  {
    hide SchedStep, LockExec, Exec, LoadFrom, UnloadFrom, Flat, Finish;
    var w := LockExec(Start(n), ls);
    var large := LocksRefineSections(n, ls);
    Always(n, large);
    var e := Abs(w).e;
    assert FloorGap(e, f) == 0 && TotalGap(e) == 0;
    if w.inside != Out {
      FinishGap(At(w.e, w.sched, w.inside), f);
    } else if w.mutex.HeldBy? {
      UndoGap(w.e, w.callers[w.mutex.i], f);
    }
  }

  // ---------- `loads` and `serviced` ----------

  /** By how much `loads` differs from the number of people on board or discarded. */
  function LoadsDebt(w: LockedWorld): int {
    if w.mutex.HeldBy? && w.mutex.i < |w.callers| then StopDebt(w.e, w.callers[w.mutex.i])
    else SectionDebt(w.inside)
  }

  /** A stop has taken them off the list, and they count as discarded when the list is empty. */
  function StopDebt(e: Elevator, x: Caller): int {
    if x.StopMove? && e.onboard != [] then |x.bin| else 0
  }

  /** One has left the list and is still counted, or is on the list and not yet counted. */
  function SectionDebt(x: Inside): int {
    if x.ULoads? then 1 else if x.LStatus? || x.LLoads? then -1 else 0
  }

  /** By how much `serviced` differs from the number of people delivered. */
  function ServicedDebt(x: Inside): int {
    if x.ULoads? || x.UServiced? then -1 else 0
  }

  function LoadsGap(e: Elevator): int {
    e.loads - |e.onboard| - |e.log.discarded|
  }

  function ServicedGap(e: Elevator): int {
    e.serviced - |e.log.delivered|
  }

  lemma ScanLoadsGap(e: Elevator, i: nat)
    ensures i <= |e.onboard| ==> LoadsGap(UnloadFrom(e, i)) == LoadsGap(e)
    ensures i <= |e.onboard| ==> ServicedGap(UnloadFrom(e, i)) == ServicedGap(e)
    ensures i <= |Queue(e)| ==> LoadsGap(LoadFrom(e, i)) == LoadsGap(e)
    ensures i <= |Queue(e)| ==> ServicedGap(LoadFrom(e, i)) == ServicedGap(e)
  {
    if i <= |e.onboard| {
      UnloadSplits(e.onboard[i..], e.floor);
    }
    if i <= |Queue(e)| {
      BoardCounts(Queue(e)[i..], e.floor, e.loads, e.status);
    }
  }

  /** Each small step moves the gaps exactly as the debts say. */
  lemma UnloadLoadsGap(c: Section)
    requires InUnload(c.x) && !c.x.UScan?
    ensures var c' := UnloadMicro(c);
      && LoadsGap(c'.e) - SectionDebt(c'.x) == LoadsGap(c.e) - SectionDebt(c.x)
      && ServicedGap(c'.e) - ServicedDebt(c'.x) == ServicedGap(c.e) - ServicedDebt(c.x)
  {
  }

  lemma LoadLoadsGap(c: Section)
    requires InLoad(c.x) && !c.x.LScan?
    ensures var c' := LoadMicro(c);
      && LoadsGap(c'.e) - SectionDebt(c'.x) == LoadsGap(c.e) - SectionDebt(c.x)
      && ServicedGap(c'.e) - ServicedDebt(c'.x) == ServicedGap(c.e) - ServicedDebt(c.x)
  {
  }

  lemma {:induction false} FinishLoadsGap(c: Section)
    ensures LoadsGap(Finish(c).e) == LoadsGap(c.e) - SectionDebt(c.x)
    ensures ServicedGap(Finish(c).e) == ServicedGap(c.e) - ServicedDebt(c.x)
    decreases StepsLeft(c.x)
  {
    hide LoadFrom, UnloadFrom, LoadsGap, ServicedGap;
    if c.x.UScan? || c.x.LScan? {
      ScanLoadsGap(c.e, c.x.i);
    } else if InUnload(c.x) {
      UnloadLoadsGap(c);
      FinishLoadsGap(UnloadMicro(c));
    } else if InLoad(c.x) {
      LoadLoadsGap(c);
      FinishLoadsGap(LoadMicro(c));
    }
  }

  lemma UndoLoadsGap(e: Elevator, x: Caller)
    ensures LoadsGap(Undo(e, x)) == LoadsGap(e) - StopDebt(e, x)
    ensures ServicedGap(Undo(e, x)) == ServicedGap(e)
  {
  }

  /** The same for `loads` and `serviced`, in the middle of unloading, loading and a stop. */
  lemma LoadsUpToHolder(n: nat, ls: seq<Label>)
    ensures var w := LockExec(Start(n), ls);
      && w.e.loads == |w.e.onboard| + |w.e.log.discarded| + LoadsDebt(w)
      && w.e.serviced == |w.e.log.delivered| + ServicedDebt(w.inside)
      && (w.mutex == Unlocked ==>
            w.e.loads == |w.e.onboard| + |w.e.log.discarded| && w.e.serviced == |w.e.log.delivered|)
  {
    hide SchedStep, LockExec, Exec, LoadFrom, UnloadFrom, Finish, Undo;
    var w := LockExec(Start(n), ls);
    var large := LocksRefineSections(n, ls);
    Always(n, large);
    assert LoadsGap(Abs(w).e) == 0 && ServicedGap(Abs(w).e) == 0;
    if w.inside != Out {
      FinishLoadsGap(At(w.e, w.sched, w.inside));
    } else if w.mutex.HeldBy? {
      UndoLoadsGap(w.e, w.callers[w.mutex.i]);
    }
  }

  /** With the mutex free, the state is one that AtomicMachine reaches, so everything proved of its
      runs holds of it. */
  lemma FreeStatesAreAtomic(n: nat, ls: seq<Label>) returns (large: seq<Label>)
    requires LockExec(Start(n), ls).mutex == Unlocked
    ensures var w, v := LockExec(Start(n), ls), Exec(Init(n), large);
      && v.e == w.e && v.flags == w.flags && v.sched == w.sched && Inv(v)
      && |v.threads| == |w.callers|
      && forall i :: 0 <= i < |w.callers| ==> w.callers[i] == Plain(v.threads[i])
  {
    large := LocksRefineSections(n, ls);
    Always(n, large);
    var w := LockExec(Start(n), ls);
    forall i | 0 <= i < |w.callers|
      ensures w.callers[i] == Plain(Exec(Init(n), large).threads[i])
    {
      AbsCallersPut(w.e, w.callers, i, w.callers[i]);
    }
  }
}
