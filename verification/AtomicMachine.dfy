/**
 The scheduler thread and any number of system calls, interleaved. Each access to a variable that some
 thread uses without the mutex is a step of its own. What a critical section does to the lists and
 counters is one step; in `issue_request` it follows the test of `deactiving`, which the mutex does
 not protect. Line numbers in comments are those of part3/elevator.c.
 */
module AtomicMachine {
  import opened Passengers
  import opened Cabin

  datatype Flags = Flags(started: bool, deactiving: bool)

  /** Where the scheduler is: the next thing it does. */
  datatype Pc =
    | TestWaiting | TestOnboard                     // line 369, one read each
    | Unloading | Freeing | Disinfecting            // unloadPassengers
    | TestRoom | Boarding                           // line 377, loadPassengers
    | Pausing                                       // line 382
    | TestLoads | TestQueues | Turning | Moving     // lines 389-393
    | TestStop | Retiring                           // lines 395-398
    | Resting                                       // lines 401-410

  /** The scheduler's local variables: delete_list, unload_sleep and load_sleep. */
  datatype Sched = Sched(pc: Pc, bin: seq<Passenger>, unloaded: bool, loaded: bool)

  datatype Request = Request(start: int, dest: int, kind: int)
  type Checked = r: Request | Acceptable(r.start, r.dest, r.kind) witness Request(1, 1, 0)

  /** Where a system call is; `Ready` holds the last value returned. */
  datatype Local =
    | Ready(result: int)
    | StartSetStarted | StartClearStop
    | IssueEnter(request: Checked) | IssueCommit(request: Checked)
    | StopTestFlag | StopSetFlag | StopClearStarted | StopEnter | StopFree(bin: seq<Passenger>)

  datatype Call = CallStart | CallIssue(request: Request) | CallStop

  datatype RawWorld = World(e: Elevator, flags: Flags, sched: Sched, threads: seq<Local>)
  {
    predicate Shaped() {
      && (sched.pc == Moving ==> e.motion == Heading(e))
      && (sched.pc != Freeing ==> sched.bin == [])
      && (sched.pc == TestWaiting ==> sched == FRESH)
    }
  }

  type World = w: RawWorld | w.Shaped() witness Init(0)

  const FRESH := Sched(TestWaiting, [], false, false)

  function Init(n: nat): RawWorld {
    World(Setup(), Flags(false, false), FRESH, seq(n, _ => Ready(0)))
  }

  // ---------- the scheduler ----------

  function Goto(w: World, pc: Pc): World
    requires pc != Moving && pc != TestWaiting && w.sched.bin == []
  {
    w.(sched := w.sched.(pc := pc))
  }

  function NextRound(w: World, e: Elevator): World {
    w.(e := EndRound(e), sched := FRESH)
  }

  function SchedStep(w: World): World {
    var e, s := w.e, w.sched;
    match s.pc
    case TestWaiting => Goto(w, if e.numWaiting != 0 then Unloading else TestOnboard)
    case TestOnboard => Goto(w, if e.onboard != [] then Unloading else Resting)
    case Unloading =>
      w.(e := Unload(e), sched := s.(pc := Freeing, bin := Outgoing(e), unloaded := Outgoing(e) != []))
    case Freeing =>
      if s.bin == [] then Goto(w, Disinfecting)
      else w.(e := Free(e, [s.bin[0]]), sched := s.(bin := s.bin[1..]))
    case Disinfecting => w.(e := Disinfect(e), sched := s.(pc := TestRoom))
    case TestRoom => Goto(w, if e.loads < CAPACITY then Boarding else Pausing)
    case Boarding => w.(e := Load(e), sched := s.(pc := Pausing, loaded := Incoming(e) != []))
    case Pausing =>
      w.(e := if s.unloaded || s.loaded then e.(motion := Motion.Loading) else e, sched := s.(pc := TestLoads))
    case TestLoads => Goto(w, if e.loads != 0 then Turning else TestQueues)
    case TestQueues => Goto(w, if e.numWaiting != 0 then Turning else TestStop)
    case TestStop => if w.flags.deactiving then Goto(w, Retiring) else NextRound(w, e)
    case Retiring => NextRound(w.(flags := w.flags.(deactiving := false)), e.(motion := Offline))
    case Turning => w.(e := Turn(e), sched := s.(pc := Moving))
    case Moving => NextRound(w, Move(e))
    case Resting => NextRound(w, e.(motion := if w.flags.started then Idle else Offline))
  }

  // ---------- the system calls ----------

  function Resume(w: World, i: nat, x: Local): World
    requires i < |w.threads|
  {
    w.(threads := w.threads[i := x])
  }

  /** The flags and the caller after a step that touches no list. */
  datatype Progress = Progress(flags: Flags, next: Local)

  predicate TouchesLists(x: Local) {
    x.IssueCommit? || x.StopEnter? || x.StopFree?
  }

  function Enter(on: bool, call: Call): Local {
    match call
    case CallStart => if on then Ready(1) else StartSetStarted
    case CallIssue(r) => if on && Acceptable(r.start, r.dest, r.kind) then IssueEnter(r) else Ready(1)
    case CallStop => if on then StopTestFlag else Ready(1)
  }

  function CallStep(f: Flags, x: Local, call: Call): Progress
    requires !TouchesLists(x)
  {
    match x
    case Ready(_) => Progress(f, Enter(f.started, call))
    case StartSetStarted => Progress(f.(started := true), StartClearStop)
    case StartClearStop => Progress(f.(deactiving := false), Ready(0))
    case IssueEnter(r) => Progress(f, if f.deactiving then Ready(0) else IssueCommit(r))
    case StopTestFlag => Progress(f, if f.deactiving then Ready(1) else StopSetFlag)
    case StopSetFlag => Progress(f.(deactiving := true), StopClearStarted)
    case StopClearStarted => Progress(f.(started := false), StopEnter)
  }

  function ThreadStep(w: World, i: nat, call: Call): World
    requires i < |w.threads|
  {
    match w.threads[i]
    case IssueCommit(r) => Resume(WithElevator(w, Enqueue(w.e, r.start, r.dest, r.kind)), i, Ready(0))
    case StopEnter => Resume(WithElevator(w, Discard(w.e)), i, StopFree(w.e.onboard))
    case StopFree(bin) =>
      if bin == [] then Resume(w, i, Ready(0))
      else Resume(WithElevator(w, Free(w.e, [bin[0]])), i, StopFree(bin[1..]))
    case _ =>
      var m := CallStep(w.flags, w.threads[i], call);
      Resume(w.(flags := m.flags), i, m.next)
  }

  /** Replaces the shared data by a version that differs in the lists, counters and history only. */
  function WithElevator(w: World, e: Elevator): World
    requires e.motion == w.e.motion && e.floor == w.e.floor && e.next == w.e.next
  {
    w.(e := e)
  }

  // ---------- runs ----------

  /** Whose turn it is. A thread with no call in progress enters `call`; otherwise `call` is not read. */
  datatype Label = Run | Thread(i: nat, call: Call)

  function Step(w: World, l: Label): World {
    match l
    case Run => SchedStep(w)
    case Thread(i, call) => if i < |w.threads| then ThreadStep(w, i, call) else w
  }

  function Exec(w: World, ls: seq<Label>): World
    decreases ls
  {
    if ls == [] then w else Exec(Step(w, ls[0]), ls[1..])
  }

  lemma {:induction false} ExecSplit(w: World, front: seq<Label>, back: seq<Label>)
    ensures Exec(w, front + back) == Exec(Exec(w, front), back)
    decreases front
  {
    if front == [] {
      assert [] + back == back;
    } else {
      assert (front + back)[1..] == front[1..] + back;
      ExecSplit(Step(w, front[0]), front[1..], back);
    }
  }
}
