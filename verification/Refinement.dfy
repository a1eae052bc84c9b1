/**
 Every interleaving of the small steps of LockMachine is an interleaving of the large steps of
 AtomicMachine. A section of the scheduler takes effect when it gets the lock, a request when it
 increments `num_waiting`, a stop when the onboard list becomes empty: until then its effect is undone
 in the abstraction, and after it the rest of its work is done ahead.
 */
module Refinement {
  import opened Passengers
  import opened Cabin
  import opened Critical
  import opened AtomicMachine
  import opened LockMachine

  // ---------- the scheduler's sections, completed ----------

  datatype Done = Done(e: Elevator, s: Sched)

  function StepsLeft(x: Inside): nat {
    match x
    case UMove(_) => 3
    case ULoads(_) => 2
    case UServiced(_) => 1
    case LMove(_) => 5
    case LStatus(_) => 4
    case LLoads(_) => 3
    case LFloor(_) => 2
    case LTotal(_) => 1
    case _ => 0
  }

  function UnloadDoneFrom(e: Elevator, s: Sched, i: nat): Done
    requires i <= |e.onboard|
  {
    var out := Leaving(e.onboard[i..], e.floor);
    Done(UnloadFrom(e, i), s.(pc := Freeing, bin := s.bin + out, unloaded := s.unloaded || out != []))
  }

  function LoadDoneFrom(e: Elevator, s: Sched, i: nat): Done
    requires i <= |Queue(e)|
  {
    var boarding := Board(Queue(e)[i..], e.floor, e.loads, e.status).aboard;
    Done(LoadFrom(e, i), s.(pc := Pausing, loaded := s.loaded || boarding != []))
  }

  /** What the section leaves behind once it is through. */
  function Finish(c: Section): Done
    decreases StepsLeft(c.x)
  {
    if c.x.UScan? then UnloadDoneFrom(c.e, c.s, c.x.i)
    else if c.x.LScan? then LoadDoneFrom(c.e, c.s, c.x.i)
    else if InUnload(c.x) then Finish(UnloadMicro(c))
    else if InLoad(c.x) then Finish(LoadMicro(c))
    else if c.x.ULeave? then Done(c.e, c.s.(pc := Freeing))
    else if c.x.LLeave? then Done(c.e, c.s.(pc := Pausing))
    else Done(c.e, c.s)
  }

  lemma UnloadDoneFromStep(e: Elevator, s: Sched, i: nat)
    requires i < |e.onboard|
    ensures e.onboard[i].dest != e.floor ==> UnloadDoneFrom(e, s, i) == UnloadDoneFrom(e, s, i + 1)
    ensures e.onboard[i].dest == e.floor ==>
              UnloadDoneFrom(e, s, i)
              == UnloadDoneFrom(LetOut(e, i), s.(bin := s.bin + [e.onboard[i]], unloaded := true), i)
  {
    UnloadStep(e, i);
    var rest := Leaving(e.onboard[i + 1..], e.floor);
    assert [] + rest == rest;
    assert LetOut(e, i).onboard[i..] == e.onboard[i + 1..];
    assert (s.bin + [e.onboard[i]]) + rest == s.bin + ([e.onboard[i]] + rest);
  }

  lemma LetOutFinishes(c: Section)
    requires c.x.UMove?
    ensures var s := c.s.(bin := c.s.bin + [c.e.onboard[c.x.i]], unloaded := true);
            Finish(c) == UnloadDoneFrom(LetOut(c.e, c.x.i), s, c.x.i)
  {
    var c1 := UnloadMicro(c);
    var c2 := UnloadMicro(c1);
    var c3 := UnloadMicro(c2);
    assert c3.e == LetOut(c.e, c.x.i) && c3.x == UScan(c.x.i);
    assert Finish(c) == Finish(c1);
    assert Finish(c1) == Finish(c2);
    assert Finish(c2) == Finish(c3);
  }

  /** Doing one step of the traversal leaves the outcome of the section as it was. */
  lemma UnloadMicroFinishes(c: Section)
    requires InUnload(c.x)
    ensures Finish(UnloadMicro(c)) == Finish(c)
  {
    if c.x.UScan? {
      if c.x.i == |c.e.onboard| {
        UnloadDone(c.e);
        assert c.s.bin + [] == c.s.bin;
      } else {
        UnloadDoneFromStep(c.e, c.s, c.x.i);
        if c.e.onboard[c.x.i].dest == c.e.floor { LetOutFinishes(UnloadMicro(c)); }
      }
    }
  }

  lemma LoadDoneFromStep(e: Elevator, s: Sched, i: nat)
    requires i < |Queue(e)|
    ensures if Admits(Queue(e)[i], e.floor, e.loads, e.status)
            then LoadDoneFrom(e, s, i) == LoadDoneFrom(LetIn(e, i), s.(loaded := true), i)
            else LoadDoneFrom(e, s, i) == LoadDoneFrom(e, s, i + 1)
  {
    LoadStep(e, i);
    assert Queue(e)[i..][1..] == Queue(e)[i + 1..];
  }

  /** `loads++`, `waiting_on_floor--` and `num_waiting--`. */
  function CountIn(e: Elevator): Elevator {
    var f := e.floor - 1;
    e.(loads := e.loads + 1, onFloor := e.onFloor[f := e.onFloor[f] - 1], numWaiting := e.numWaiting - 1)
  }

  lemma CountsIn(c: Section)
    requires c.x.LLoads?
    ensures var c1 := LoadMicro(c);
      && c1.x.LFloor? && LoadMicro(c1).x.LTotal?
      && LoadMicro(LoadMicro(c1)) == At(CountIn(c.e), c.s.(loaded := true), LScan(c.x.i))
  {
    hide Finish;
  }

  lemma CountingFinishes(c: Section)
    requires c.x.LLoads?
    ensures Finish(c) == LoadDoneFrom(CountIn(c.e), c.s.(loaded := true), c.x.i)
  {
    hide LoadMicro, LoadDoneFrom, CountIn;
    CountsIn(c);
    assert Finish(c) == Finish(LoadMicro(c));
    assert Finish(LoadMicro(c)) == Finish(LoadMicro(LoadMicro(c)));
    assert Finish(LoadMicro(LoadMicro(c))) == Finish(LoadMicro(LoadMicro(LoadMicro(c))));
  }

  /** Moving the node, and the status. */
  lemma MovesIn(c: Section)
    requires c.x.LMove?
    ensures var c1 := LoadMicro(c);
            var c2 := if c1.x.LStatus? then LoadMicro(c1) else c1;
      && InLoad(c1.x) && !c1.x.LScan? && c2.x == LLoads(c.x.i) && c2.s == c.s && CountIn(c2.e) == LetIn(c.e, c.x.i)
  {
    hide Finish;
  }

  lemma FinishNext(c: Section)
    requires InLoad(c.x) && !c.x.LScan?
    ensures Finish(LoadMicro(c)) == Finish(c)
  {
    hide LoadMicro, LoadDoneFrom, UnloadDoneFrom, UnloadMicro;
  }

  lemma LetInFinishes(c: Section)
    requires c.x.LMove?
    ensures Finish(c) == LoadDoneFrom(LetIn(c.e, c.x.i), c.s.(loaded := true), c.x.i)
  {
    hide Finish, LoadMicro, LoadDoneFrom, CountIn, LetIn;
    var c1 := LoadMicro(c);
    MovesIn(c);
    FinishNext(c);
    if c1.x.LStatus? {
      FinishNext(c1);
      CountingFinishes(LoadMicro(c1));
    } else {
      CountingFinishes(c1);
    }
  }

  lemma LoadMicroFinishes(c: Section)
    requires InLoad(c.x)
    ensures Finish(LoadMicro(c)) == Finish(c)
  {
    if c.x.LScan? {
      if c.x.i == |Queue(c.e)| {
        LoadDone(c.e);
      } else {
        LoadDoneFromStep(c.e, c.s, c.x.i);
        if Admits(Queue(c.e)[c.x.i], c.e.floor, c.e.loads, c.e.status) { LetInFinishes(LoadMicro(c)); }
      }
    }
  }

  // ---------- the abstraction ----------

  /** Takes back what a caller has done of its section so far, if it has not taken effect yet. */
  function Undo(e: Elevator, x: Caller): Elevator {
    match x
    case IssueFloor(r) => e.(waiting := DropLast(e.waiting, r.start - 1))
    case IssueTotal(r) =>
      e.(waiting := DropLast(e.waiting, r.start - 1), onFloor := e.onFloor[r.start - 1 := e.onFloor[r.start - 1] - 1])
    case StopMove(bin) => if e.onboard != [] then e.(onboard := bin + e.onboard) else e
    case _ => e
  }

  function DropLast(qs: seq<seq<Passenger>>, f: nat): seq<seq<Passenger>>
    requires f < |qs|
  {
    if qs[f] == [] then qs else qs[f := qs[f][..|qs[f]| - 1]]
  }

  function AbsCaller(e: Elevator, x: Caller): Local {
    match x
    case Plain(y) => y
    case IssueTest(r) => IssueEnter(r)
    case IssueAdd(r) => IssueCommit(r)
    case IssueFloor(r) => IssueCommit(r)
    case IssueTotal(r) => IssueCommit(r)
    case IssueLeave => Ready(0)
    case StopMove(bin) => if e.onboard != [] then StopEnter else StopFree(bin)
    case StopLeave(bin) => StopFree(bin)
  }

  function AbsCallers(e: Elevator, xs: seq<Caller>): seq<Local> {
    seq(|xs|, i requires 0 <= i < |xs| => AbsCaller(e, xs[i]))
  }

  /** The shared data and the scheduler, with the holder's section undone or completed. */
  function Settle(w: LockedWorld): Done {
    if w.inside != Out then Finish(At(w.e, w.sched, w.inside))
    else if w.mutex.HeldBy? && w.mutex.i < |w.callers| then Done(Undo(w.e, w.callers[w.mutex.i]), w.sched)
    else Done(w.e, w.sched)
  }

  lemma FinishShape(c: Section)
    ensures var d := Finish(c);
      && (c.x != Out ==> d.s.pc == Freeing || d.s.pc == Pausing)
      && (c.x != Out && d.s.pc == Pausing ==> d.s.bin == [])
    decreases StepsLeft(c.x)
  {
    if InUnload(c.x) && !c.x.UScan? { FinishShape(UnloadMicro(c)); }
    if InLoad(c.x) && !c.x.LScan? { FinishShape(LoadMicro(c)); }
  }

  lemma AbsShaped(w: LockedWorld)
    ensures World(Settle(w).e, w.flags, Settle(w).s, AbsCallers(w.e, w.callers)).Shaped()
  {
    if w.inside != Out { FinishShape(At(w.e, w.sched, w.inside)); }
  }

  function Abs(w: LockedWorld): World {
    AbsShaped(w);
    World(Settle(w).e, w.flags, Settle(w).s, AbsCallers(w.e, w.callers))
  }

  // ---------- the invariant of the small steps ----------

  /** A request inside its section has its passenger last on the list. */
  predicate Halfway(e: Elevator, x: Caller) {
    (x.IssueFloor? || x.IssueTotal?) ==>
      var q := e.waiting[x.request.start - 1];
      q != [] && q[|q| - 1] == Newcomer(e, x.request.start, x.request.dest, x.request.kind)
  }

  ghost predicate LockInv(w: LockedWorld) {
    && Exclusive(w)
    && (forall i :: 0 <= i < |w.callers| ==>
          Halfway(w.e, w.callers[i]) && (w.callers[i].Plain? ==> !w.callers[i].x.IssueCommit?))
  }

  // ---------- steps of the scheduler ----------

  /** What the large steps make of one small step. */
  function AbsLabels(w: LockedWorld, l: Label): seq<Label> {
    match l
    case Run =>
      var waits := (w.sched.pc == Unloading || w.sched.pc == Boarding) && w.mutex != Unlocked;
      if w.inside != Out || waits then [] else [l]
    case Thread(i, call) =>
      if i >= |w.callers| then []
      else match w.callers[i]
        case Plain(x) =>
          if x.IssueEnter? || x.IssueCommit? then []
          else if x.StopEnter? then (if w.mutex == Unlocked && w.e.onboard == [] then [l] else [])
          else [l]
        case IssueTest(_) => [l]
        case IssueTotal(_) => [l]
        case StopMove(_) => if |w.e.onboard| == 1 then [l] else []
        case _ => []
  }

  /** One small step: the invariant stays, and the abstraction makes one large step or none. */
  ghost predicate Simulates(w: LockedWorld, l: Label) {
    var w' := LockStep(w, l);
    LockInv(w') && Abs(w') == (if AbsLabels(w, l) == [] then Abs(w) else Step(Abs(w), l))
  }

  /** Nobody but the scheduler is inside a section, so the callers are what they seem. */
  lemma PlainCallers(w: LockedWorld, e: Elevator)
    requires Exclusive(w) && w.mutex == HeldByScheduler
    ensures AbsCallers(e, w.callers) == AbsCallers(w.e, w.callers)
  {
    assert forall i :: 0 <= i < |w.callers| ==> w.callers[i].Plain?;
  }

  /** A step of a section leaves what it will come to as it was. */
  lemma InsideSettles(w: LockedWorld)
    requires w.inside != Out
    ensures var w' := LockStep(w, Run); Settle(w') == Settle(w) || w'.mutex != w.mutex
    ensures var w' := LockStep(w, Run); w'.mutex != w.mutex ==> Done(w'.e, w'.sched) == Settle(w)
  {
    hide SchedStep, LoadFrom, UnloadFrom, LoadDoneFrom, UnloadDoneFrom;
    var c: Section := At(w.e, w.sched, w.inside);
    if InUnload(c.x) {
      UnloadMicroFinishes(c);
    } else if InLoad(c.x) {
      LoadMicroFinishes(c);
    }
  }

  lemma InsideFrame(w: LockedWorld)
    requires w.inside != Out
    ensures var w' := LockStep(w, Run);
      && w'.flags == w.flags && w'.callers == w.callers
      && (if w.inside == ULeave || w.inside == LLeave then w'.mutex == Unlocked && w'.inside == Out
          else w'.mutex == w.mutex && w'.inside != Out)
  {
    hide SchedStep, Finish;
  }

  lemma InsideSimulates(w: LockedWorld)
    requires LockInv(w) && w.inside != Out
    ensures Simulates(w, Run)
  {
    hide SchedStep, Finish, LockStep;
    PlainCallers(w, LockStep(w, Run).e);
    InsideFrame(w);
    InsideSettles(w);
  }

  /** On taking the mutex the scheduler has its whole section done in the abstraction. */
  lemma EntersSection(w: LockedWorld)
    requires w.inside == Out && w.mutex == Unlocked && (w.sched.pc == Unloading || w.sched.pc == Boarding)
    ensures var w', v := LockStep(w, Run), SchedStep(World(w.e, w.flags, w.sched, []));
      && w'.inside != Out && w'.mutex == HeldByScheduler && w'.flags == w.flags && w'.callers == w.callers
      && Settle(w') == Done(v.e, v.sched) && v.flags == w.flags
  {
    assert w.e.onboard[0..] == w.e.onboard;
    assert [] + Outgoing(w.e) == Outgoing(w.e);
    assert Queue(Mark(w.e))[0..] == Queue(w.e);
  }

  lemma SectionIgnoresThreads(e: Elevator, f: Flags, s: Sched, ts: seq<Local>)
    requires World(e, f, s, ts).Shaped() && (s.pc == Unloading || s.pc == Boarding)
    ensures SchedStep(World(e, f, s, ts)) == SchedStep(World(e, f, s, [])).(threads := ts)
  {
    hide Load, Unload, Outgoing, Incoming;
  }

  lemma AcquireSimulates(w: LockedWorld)
    requires LockInv(w) && w.inside == Out && (w.sched.pc == Unloading || w.sched.pc == Boarding)
    ensures Simulates(w, Run)
  {
    hide SchedStep, Finish;
    if w.mutex == Unlocked {
      EntersSection(w);
      var w' := LockStep(w, Run);
      assert AbsCallers(w'.e, w.callers) == AbsCallers(w.e, w.callers);
      SectionIgnoresThreads(w.e, w.flags, w.sched, AbsCallers(w.e, w.callers));
    }
  }

  /** `e` with the lists and floor counters of `m`. */
  function WithLists(e: Elevator, m: Elevator): Elevator {
    e.(waiting := m.waiting, onFloor := m.onFloor, onboard := m.onboard)
  }

  /** Up to the test of line 377. */
  predicate FirstHalf(pc: Pc) {
    pc == TestWaiting || pc == TestOnboard || pc == Freeing || pc == Disinfecting || pc == TestRoom
  }

  lemma FirstHalfIgnoresLists(e: Elevator, m: Elevator, f: Flags, s: Sched, ts: seq<Local>)
    requires World(e, f, s, ts).Shaped() && FirstHalf(s.pc) && (m.onboard == [] <==> e.onboard == [])
    ensures World(WithLists(e, m), f, s, ts).Shaped()
    ensures var v := SchedStep(World(e, f, s, []));
            SchedStep(World(WithLists(e, m), f, s, ts)) == v.(e := WithLists(v.e, m), threads := ts)
  {
  }

  /** Up to the end of the iteration. */
  predicate Ending(pc: Pc) {
    pc == TestStop || pc == Retiring || pc == Moving || pc == Resting
  }

  lemma SecondHalfIgnoresLists(e: Elevator, m: Elevator, f: Flags, s: Sched, ts: seq<Local>)
    requires World(e, f, s, ts).Shaped() && !FirstHalf(s.pc) && s.pc != Unloading && s.pc != Boarding
    requires !Ending(s.pc)
    ensures World(WithLists(e, m), f, s, ts).Shaped()
    ensures var v := SchedStep(World(e, f, s, []));
            SchedStep(World(WithLists(e, m), f, s, ts)) == v.(e := WithLists(v.e, m), threads := ts)
  {
    hide Load, Unload, Outgoing, Incoming, Free, Disinfect, Move, EndRound;
  }

  lemma EndingIgnoresLists(e: Elevator, m: Elevator, f: Flags, s: Sched, ts: seq<Local>)
    requires World(e, f, s, ts).Shaped() && Ending(s.pc) && s.pc != Moving
    ensures World(WithLists(e, m), f, s, ts).Shaped()
    ensures var v := SchedStep(World(e, f, s, []));
            SchedStep(World(WithLists(e, m), f, s, ts)) == v.(e := WithLists(v.e, m), threads := ts)
  {
    hide Load, Unload, Outgoing, Incoming, Free, Disinfect, Move, Turn;
  }

  lemma MovingIgnoresLists(e: Elevator, m: Elevator, f: Flags, s: Sched, ts: seq<Local>)
    requires World(e, f, s, ts).Shaped() && s.pc == Moving
    ensures World(WithLists(e, m), f, s, ts).Shaped()
    ensures var v := SchedStep(World(e, f, s, []));
            SchedStep(World(WithLists(e, m), f, s, ts)) == v.(e := WithLists(v.e, m), threads := ts)
  {
    hide Load, Unload, Outgoing, Incoming, Free, Disinfect, Turn;
  }

  /** Outside its sections the scheduler reads of these only whether the cabin is empty. */
  lemma SchedIgnoresLists(e: Elevator, m: Elevator, f: Flags, s: Sched, ts: seq<Local>)
    requires World(e, f, s, ts).Shaped()
    requires s.pc != Unloading && s.pc != Boarding && (m.onboard == [] <==> e.onboard == [])
    ensures World(WithLists(e, m), f, s, ts).Shaped()
    ensures var v := SchedStep(World(e, f, s, []));
            SchedStep(World(WithLists(e, m), f, s, ts)) == v.(e := WithLists(v.e, m), threads := ts)
  {
    hide SchedStep;
    if FirstHalf(s.pc) {
      FirstHalfIgnoresLists(e, m, f, s, ts);
    } else if s.pc == Moving {
      MovingIgnoresLists(e, m, f, s, ts);
    } else if Ending(s.pc) {
      EndingIgnoresLists(e, m, f, s, ts);
    } else {
      SecondHalfIgnoresLists(e, m, f, s, ts);
    }
  }

  lemma UndoChangesLists(e: Elevator, e': Elevator, x: Caller)
    requires WithLists(e', e) == e' && e'.log.accepted == e.log.accepted
    ensures Undo(e', x) == WithLists(e', Undo(e, x))
    ensures Undo(e, x).onboard == [] <==> e.onboard == []
    ensures AbsCaller(e', x) == AbsCaller(e, x)
  {
  }

  lemma SchedKeepsLists(e: Elevator, f: Flags, s: Sched)
    requires World(e, f, s, []).Shaped() && s.pc != Unloading && s.pc != Boarding
    ensures var e' := SchedStep(World(e, f, s, [])).e;
            WithLists(e', e) == e' && e'.log.accepted == e.log.accepted
  {
  }

  /** The scheduler's other steps do not see what a holder of the mutex has pending. */
  lemma OutsideSimulates(w: LockedWorld)
    requires LockInv(w) && w.inside == Out && w.sched.pc != Unloading && w.sched.pc != Boarding
    ensures Simulates(w, Run)
  {
    hide SchedStep, Finish, Undo;
    var w' := LockStep(w, Run);
    SchedKeepsLists(w.e, w.flags, w.sched);
    assert AbsCallers(w'.e, w.callers) == AbsCallers(w.e, w.callers);
    var ts := AbsCallers(w.e, w.callers);
    if w.mutex.HeldBy? {
      var x := w.callers[w.mutex.i];
      UndoChangesLists(w.e, w.e, x);
      UndoChangesLists(w.e, w'.e, x);
      SchedIgnoresLists(w.e, Undo(w.e, x), w.flags, w.sched, ts);
    } else {
      SchedIgnoresLists(w.e, w.e, w.flags, w.sched, ts);
    }
  }

  lemma RunSimulates(w: LockedWorld)
    requires LockInv(w)
    ensures Simulates(w, Run)
  {
    if w.inside != Out {
      InsideSimulates(w);
    } else if w.sched.pc == Unloading || w.sched.pc == Boarding {
      AcquireSimulates(w);
    } else {
      OutsideSimulates(w);
    }
  }

  // ---------- steps of the system calls ----------

  lemma AbsCallersPut(e: Elevator, xs: seq<Caller>, i: nat, x: Caller)
    requires i < |xs|
    ensures AbsCallers(e, xs[i := x]) == AbsCallers(e, xs)[i := AbsCaller(e, x)]
    ensures AbsCallers(e, xs)[i] == AbsCaller(e, xs[i])
  {
  }

  /** The section in the same place, after another thread freed `p`. */
  function Freed(c: Section, p: Passenger): Section {
    c.(e := Free(c.e, [p]))
  }

  lemma UnloadMicroFrees(c: Section, p: Passenger)
    requires InUnload(c.x)
    ensures UnloadMicro(Freed(c, p)) == Freed(UnloadMicro(c), p)
  {
  }

  lemma LoadMicroFrees(c: Section, p: Passenger)
    requires InLoad(c.x)
    ensures LoadMicro(Freed(c, p)) == Freed(LoadMicro(c), p)
  {
  }

  /** Freeing a node changes nothing a section reads. */
  lemma {:induction false} FinishFrees(c: Section, p: Passenger)
    ensures Finish(Freed(c, p)) == Finish(c).(e := Free(Finish(c).e, [p]))
    decreases StepsLeft(c.x)
  {
    if InUnload(c.x) && !c.x.UScan? {
      UnloadMicroFrees(c, p);
      FinishFrees(UnloadMicro(c), p);
    } else if InLoad(c.x) && !c.x.LScan? {
      LoadMicroFrees(c, p);
      FinishFrees(LoadMicro(c), p);
    }
  }

  /** A caller that has not the mutex changes its own state and the flags only. */
  lemma PutElsewhere(w: LockedWorld, f: Flags, i: nat, x: Caller)
    requires LockInv(w) && i < |w.callers| && w.mutex != HeldBy(i)
    requires x.Plain? && !x.x.IssueCommit?
    ensures var w' := Put(w.(flags := f), i, x);
            LockInv(w') && Abs(w') == Abs(w).(flags := f, threads := Abs(w).threads[i := x.x])
  {
    AbsCallersPut(w.e, w.callers, i, x);
    assert w.callers[i].Plain?;
  }

  lemma FlagsSimulate(w: LockedWorld, i: nat, call: Call)
    requires LockInv(w) && i < |w.callers| && w.callers[i].Plain?
    requires !TouchesLists(w.callers[i].x) && !w.callers[i].x.IssueEnter?
    ensures Simulates(w, Thread(i, call))
  {
    var x := w.callers[i].x;
    var m := CallStep(w.flags, x, call);
    PutElsewhere(w, m.flags, i, Plain(m.next));
    AbsCallersPut(w.e, w.callers, i, Plain(m.next));
    assert Abs(w).threads[i] == x;
  }

  lemma IssueAcquires(w: LockedWorld, i: nat, call: Call)
    requires LockInv(w) && i < |w.callers| && w.callers[i].Plain? && w.callers[i].x.IssueEnter?
    ensures Simulates(w, Thread(i, call))
  {
    hide SchedStep, Finish, RunStep, CallStep;
    if w.mutex == Unlocked {
      AbsCallersPut(w.e, w.callers, i, IssueTest(w.callers[i].x.request));
      var ts := AbsCallers(w.e, w.callers);
      assert ts[i := ts[i]] == ts;
    }
  }

  lemma StopAcquires(w: LockedWorld, i: nat, call: Call)
    requires LockInv(w) && i < |w.callers| && w.callers[i].Plain? && w.callers[i].x.StopEnter?
    ensures Simulates(w, Thread(i, call))
  {
    hide SchedStep, Finish, RunStep, CallStep;
    if w.mutex == Unlocked {
      AbsCallersPut(w.e, w.callers, i, StopMove([]));
      var ts := AbsCallers(w.e, w.callers);
      assert ts[i := ts[i]] == ts;
      assert [] + w.e.onboard == w.e.onboard;
      assert w.e.onboard == [] ==> w.e.log.discarded + w.e.onboard == w.e.log.discarded;
    }
  }

  lemma FreeSettles(w: LockedWorld, i: nat, p: Passenger)
    requires LockInv(w) && i < |w.callers| && w.callers[i].Plain?
    ensures var w': LockedWorld := w.(e := Free(w.e, [p]));
            LockInv(w') && Settle(w') == Settle(w).(e := Free(Settle(w).e, [p]))
    ensures AbsCallers(Free(w.e, [p]), w.callers) == AbsCallers(w.e, w.callers)
  {
    hide SchedStep, RunStep;
    if w.inside != Out {
      FinishFrees(At(w.e, w.sched, w.inside), p);
    }
  }

  /** `w` after another thread freed `p`. */
  function AfterFree(w: LockedWorld, p: Passenger): RawLocked {
    w.(e := Free(w.e, [p]))
  }

  lemma AbsFrees(w: LockedWorld, i: nat, p: Passenger)
    requires LockInv(w) && i < |w.callers| && w.callers[i].Plain?
    ensures AfterFree(w, p).Shaped() && LockInv(AfterFree(w, p))
    ensures Abs(AfterFree(w, p)) == Abs(w).(e := Free(Abs(w).e, [p]))
  {
    hide SchedStep, Finish;
    FreeSettles(w, i, p);
  }

  lemma FreeSimulates(w: LockedWorld, i: nat, call: Call)
    requires LockInv(w) && i < |w.callers| && w.callers[i].Plain? && w.callers[i].x.StopFree?
    ensures Simulates(w, Thread(i, call))
  {
    hide SchedStep, Finish, RunStep;
    var bin := w.callers[i].x.bin;
    AbsCallersPut(w.e, w.callers, i, w.callers[i]);
    assert Abs(w).threads[i] == StopFree(bin);
    if bin == [] {
      PutElsewhere(w, w.flags, i, Plain(Ready(0)));
    } else {
      AbsFrees(w, i, bin[0]);
      PutElsewhere(AfterFree(w, bin[0]), w.flags, i, Plain(StopFree(bin[1..])));
    }
  }

  /** Testing `deactiving`, and unlocking. */
  lemma HeldSimulates(w: LockedWorld, i: nat, call: Call)
    requires LockInv(w) && i < |w.callers|
    requires w.callers[i].IssueTest? || w.callers[i].IssueLeave? || w.callers[i].StopLeave?
    ensures Simulates(w, Thread(i, call))
  {
    hide SchedStep, Finish, RunStep, PlainStep;
    var w' := LockStep(w, Thread(i, call));
    AbsCallersPut(w.e, w.callers, i, w'.callers[i]);
    var ts := AbsCallers(w.e, w.callers);
    assert ts[i := ts[i]] == ts;
  }

  /** Requests only add to the end of a list and to counters, which `Undo` takes back. */
  lemma UndoTakesBack(e: Elevator, r: Checked)
    ensures var f, p := r.start - 1, Newcomer(e, r.start, r.dest, r.kind);
            var e1: Elevator := e.(waiting := e.waiting[f := e.waiting[f] + [p]]);
            var e2: Elevator := e1.(onFloor := e1.onFloor[f := e1.onFloor[f] + 1]);
            && Undo(e1, IssueFloor(r)) == e && Undo(e2, IssueTotal(r)) == e
            && Halfway(e1, IssueFloor(r))
  {
    var f, q := r.start - 1, e.waiting[r.start - 1] + [Newcomer(e, r.start, r.dest, r.kind)];
    assert q[..|q| - 1] == e.waiting[f];
    assert DropLast(e.waiting[f := q], f) == e.waiting;
    assert e.onFloor[f := e.onFloor[f] + 1][f := e.onFloor[f]] == e.onFloor;
  }

  lemma AddSimulates(w: LockedWorld, i: nat, call: Call)
    requires LockInv(w) && i < |w.callers| && w.callers[i].IssueAdd?
    ensures Simulates(w, Thread(i, call))
  {
    hide SchedStep, Finish, RunStep, PlainStep;
    var w', x := LockStep(w, Thread(i, call)), w.callers[i];
    AbsCallersPut(w.e, w.callers, i, w'.callers[i]);
    var ts := AbsCallers(w.e, w.callers);
    assert ts[i := ts[i]] == ts;
    assert AbsCallers(w'.e, w'.callers) == AbsCallers(w.e, w'.callers);
    UndoTakesBack(w.e, x.request);
  }

  lemma CountSimulates(w: LockedWorld, i: nat, call: Call)
    requires LockInv(w) && i < |w.callers| && w.callers[i].IssueFloor?
    ensures Simulates(w, Thread(i, call))
  {
    hide SchedStep, Finish, RunStep, PlainStep;
    var w', f := LockStep(w, Thread(i, call)), w.callers[i].request.start - 1;
    AbsCallersPut(w.e, w.callers, i, w'.callers[i]);
    var ts := AbsCallers(w.e, w.callers);
    assert ts[i := ts[i]] == ts;
    assert AbsCallers(w'.e, w'.callers) == AbsCallers(w.e, w'.callers);
    assert w'.e.onFloor[f := w'.e.onFloor[f] - 1] == w.e.onFloor;
  }

  lemma CommitSimulates(w: LockedWorld, i: nat, call: Call)
    requires LockInv(w) && i < |w.callers| && w.callers[i].IssueTotal?
    ensures Simulates(w, Thread(i, call))
  {
    hide SchedStep, Finish, RunStep, PlainStep;
    var w', r := LockStep(w, Thread(i, call)), w.callers[i].request;
    var f, u := r.start - 1, Undo(w.e, w.callers[i]);
    var q := w.e.waiting[f];
    AbsCallersPut(w.e, w.callers, i, w'.callers[i]);
    assert AbsCallers(w'.e, w'.callers) == AbsCallers(w.e, w'.callers);
    assert q == q[..|q| - 1] + [Newcomer(u, r.start, r.dest, r.kind)];
    assert Enqueue(u, r.start, r.dest, r.kind).waiting == w.e.waiting;
    assert Enqueue(u, r.start, r.dest, r.kind).onFloor == w.e.onFloor;
    assert Enqueue(u, r.start, r.dest, r.kind) == w'.e;
  }

  /** With the mutex at caller `i`, the other callers are what they seem. */
  lemma AbsCallersHeld(w: LockedWorld, i: nat, e: Elevator, x: Caller)
    requires Exclusive(w) && i < |w.callers| && w.mutex == HeldBy(i)
    ensures AbsCallers(e, w.callers[i := x]) == AbsCallers(w.e, w.callers)[i := AbsCaller(e, x)]
    ensures AbsCallers(w.e, w.callers)[i] == AbsCaller(w.e, w.callers[i])
  {
    assert forall j :: 0 <= j < |w.callers| && j != i ==> w.callers[j].Plain?;
  }

  lemma StopSimulates(w: LockedWorld, i: nat, call: Call)
    requires LockInv(w) && i < |w.callers| && w.callers[i].StopMove?
    ensures Simulates(w, Thread(i, call))
  {
    hide SchedStep, Finish, RunStep, PlainStep;
    var w' := LockStep(w, Thread(i, call));
    AbsCallersHeld(w, i, w'.e, w'.callers[i]);
    var ts := AbsCallers(w.e, w.callers);
    assert ts[i := ts[i]] == ts;
    if w.e.onboard != [] {
      MovedOne(w.callers[i].bin, w.e.onboard);
    }
  }

  lemma MovedOne(bin: seq<Passenger>, o: seq<Passenger>)
    requires o != []
    ensures bin + o == (bin + [o[0]]) + o[1..]
    ensures |o| == 1 ==> o[1..] == [] && bin + o == bin + [o[0]]
  {
    assert o == [o[0]] + o[1..];
  }

  lemma StepSimulates(w: LockedWorld, l: Label)
    requires LockInv(w)
    ensures Simulates(w, l)
  {
    hide SchedStep, Finish;
    match l
    case Run => RunSimulates(w);
    case Thread(i, call) =>
      if i < |w.callers| {
        match w.callers[i]
        case Plain(x) =>
          if x.IssueEnter? {
            IssueAcquires(w, i, call);
          } else if x.StopEnter? {
            StopAcquires(w, i, call);
          } else if x.StopFree? {
            FreeSimulates(w, i, call);
          } else {
            FlagsSimulate(w, i, call);
          }
        case IssueTotal(_) => CommitSimulates(w, i, call);
        case StopMove(_) => StopSimulates(w, i, call);
        case IssueAdd(_) => AddSimulates(w, i, call);
        case IssueFloor(_) => CountSimulates(w, i, call);
        case _ => HeldSimulates(w, i, call);
      }
  }

  // ---------- runs ----------

  lemma {:induction false} RunRefines(w: LockedWorld, ls: seq<Label>) returns (large: seq<Label>)
    requires LockInv(w)
    ensures LockInv(LockExec(w, ls))
    ensures Abs(LockExec(w, ls)) == Exec(Abs(w), large)
    ensures forall l :: l in large ==> l in ls
    decreases ls
  {
    hide SchedStep, LockStep, LockInv, Finish;
    if ls == [] {
      large := [];
    } else {
      StepSimulates(w, ls[0]);
      var rest := RunRefines(LockStep(w, ls[0]), ls[1..]);
      large := AbsLabels(w, ls[0]) + rest;
      ExecSplit(Abs(w), AbsLabels(w, ls[0]), rest);
    }
  }
}
