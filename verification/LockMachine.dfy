/**
 The same threads at the grain of single list operations and counter updates, with the mutex explicit.
 Inside a critical section every write is a step of its own, and the other threads keep running.
 */
module LockMachine {
  import opened Passengers
  import opened Cabin
  import opened Critical
  import opened AtomicMachine

  datatype Mutex = Unlocked | HeldByScheduler | HeldBy(i: nat)

  /** Where the scheduler is inside `unloadPassengers` or `loadPassengers`; `i` nodes are behind it. */
  datatype Inside =
    | Out
    | UScan(i: nat) | UMove(i: nat) | ULoads(i: nat) | UServiced(i: nat) | ULeave
    | LScan(i: nat) | LMove(i: nat) | LStatus(i: nat) | LLoads(i: nat) | LFloor(i: nat) | LTotal(i: nat) | LLeave

  /** A system call outside its critical section, or where it is inside. */
  datatype Caller =
    | Plain(x: Local)
    | IssueTest(request: Checked) | IssueAdd(request: Checked) | IssueFloor(request: Checked)
    | IssueTotal(request: Checked) | IssueLeave
    | StopMove(bin: seq<Passenger>) | StopLeave(bin: seq<Passenger>)

  datatype RawLocked = Locked(
    e: Elevator, flags: Flags, sched: Sched, inside: Inside, mutex: Mutex, callers: seq<Caller>)
  {
    predicate Shaped() {
      && (sched.pc == Moving ==> e.motion == Heading(e))
      && (sched.pc != Freeing && inside == Out ==> sched.bin == [])
      && (sched.pc == TestWaiting ==> sched == FRESH)
      && InsideOk(e, sched, inside)
    }
  }

  /** The cursor is on the list, and the node in hand is the one the program tested. */
  predicate InsideOk(e: Elevator, s: Sched, x: Inside) {
    match x
    case Out => true
    case UScan(i) => s.pc == Unloading && i <= |e.onboard|
    case UMove(i) => s.pc == Unloading && i < |e.onboard| && e.onboard[i].dest == e.floor
    case ULoads(i) => s.pc == Unloading && i <= |e.onboard|
    case UServiced(i) => s.pc == Unloading && i <= |e.onboard|
    case ULeave => s.pc == Unloading
    case LScan(i) => s.pc == Boarding && s.bin == [] && i <= |Queue(e)|
    case LMove(i) =>
      s.pc == Boarding && s.bin == [] && i < |Queue(e)| && Admits(Queue(e)[i], e.floor, e.loads, e.status)
    case LStatus(i) => s.pc == Boarding && s.bin == [] && i <= |Queue(e)|
    case LLoads(i) => s.pc == Boarding && s.bin == [] && i <= |Queue(e)|
    case LFloor(i) => s.pc == Boarding && s.bin == [] && i <= |Queue(e)|
    case LTotal(i) => s.pc == Boarding && s.bin == [] && i <= |Queue(e)|
    case LLeave => s.pc == Boarding && s.bin == []
  }

  type LockedWorld = w: RawLocked | w.Shaped() witness Start(0)

  function Start(n: nat): RawLocked {
    Locked(Setup(), Flags(false, false), FRESH, Out, Unlocked, seq(n, _ => Plain(Ready(0))))
  }

  // ---------- the scheduler inside unloadPassengers ----------

  /** The part of the state a critical section of the scheduler works on. */
  datatype RawSection = At(e: Elevator, s: Sched, x: Inside) {
    predicate Shaped() { InsideOk(e, s, x) }
  }
  type Section = c: RawSection | c.Shaped() witness At(Setup(), FRESH, Out)

  predicate InUnload(x: Inside) {
    x.UScan? || x.UMove? || x.ULoads? || x.UServiced?
  }

  predicate InLoad(x: Inside) {
    x.LScan? || x.LMove? || x.LStatus? || x.LLoads? || x.LFloor? || x.LTotal?
  }

  function UnloadMicro(c: Section): Section
    requires InUnload(c.x)
  {
    var e, s := c.e, c.s;
    match c.x
    case UScan(i) =>
      At(e, s, if i == |e.onboard| then ULeave else if e.onboard[i].dest == e.floor then UMove(i) else UScan(i + 1))
    case UMove(i) =>
      At(e.(onboard := Without(e.onboard, i), log := e.log.(delivered := e.log.delivered + [e.onboard[i]])),
         s.(bin := s.bin + [e.onboard[i]]), ULoads(i))
    case ULoads(i) => At(e.(loads := e.loads - 1), s, UServiced(i))
    case UServiced(i) => At(e.(serviced := e.serviced + 1), s.(unloaded := true), UScan(i))
  }

  function LoadMicro(c: Section): Section
    requires InLoad(c.x)
  {
    var e, s, q := c.e, c.s, Queue(c.e);
    var f := e.floor - 1;
    match c.x
    case LScan(i) =>
      At(e, s, if i == |q| then LLeave else if Admits(q[i], e.floor, e.loads, e.status) then LMove(i) else LScan(i + 1))
    case LMove(i) =>
      At(e.(waiting := e.waiting[f := Without(q, i)], onboard := e.onboard + [q[i]],
              log := e.log.(boarded := e.log.boarded + [q[i]], tickets := e.log.tickets + [Stamp(e.log)])),
           s, if Zombie(q[i]) then LStatus(i) else LLoads(i))
    case LStatus(i) => At(e.(status := 1), s, LLoads(i))
    case LLoads(i) => At(e.(loads := e.loads + 1), s, LFloor(i))
    case LFloor(i) => At(e.(onFloor := e.onFloor[f := e.onFloor[f] - 1]), s, LTotal(i))
    case LTotal(i) => At(e.(numWaiting := e.numWaiting - 1), s.(loaded := true), LScan(i))
  }

  /** The scheduler's next step inside a critical section, and the unlock that ends it. */
  function InsideStep(w: LockedWorld): LockedWorld
    requires w.inside != Out
  {
    var c: Section := At(w.e, w.sched, w.inside);
    if InUnload(w.inside) then AtSection(w, UnloadMicro(c))
    else if InLoad(w.inside) then AtSection(w, LoadMicro(c))
    else w.(sched := w.sched.(pc := if w.inside == ULeave then Freeing else Pausing), inside := Out, mutex := Unlocked)
  }

  function AtSection(w: LockedWorld, c: Section): LockedWorld
    requires c.s.pc == w.sched.pc && c.s.pc != TestWaiting && c.s.pc != Moving && c.x != Out
  {
    w.(e := c.e, sched := c.s, inside := c.x)
  }

  // ---------- all steps ----------

  function RunStep(w: LockedWorld): LockedWorld {
    if w.inside != Out then InsideStep(w)
    else if w.sched.pc == Unloading then
      if w.mutex == Unlocked then
        w.(mutex := HeldByScheduler, sched := w.sched.(unloaded := false), inside := UScan(0))
      else w
    else if w.sched.pc == Boarding then
      if w.mutex == Unlocked then
        w.(mutex := HeldByScheduler, e := Mark(w.e), sched := w.sched.(loaded := false), inside := LScan(0))
      else w
    else
      var v := SchedStep(World(w.e, w.flags, w.sched, []));
      w.(e := v.e, flags := v.flags, sched := v.sched)
  }

  function Put(w: LockedWorld, i: nat, x: Caller): LockedWorld
    requires i < |w.callers|
  {
    w.(callers := w.callers[i := x])
  }

  /** Outside the critical sections a system call does what it does in AtomicMachine. */
  function PlainStep(w: LockedWorld, i: nat, call: Call): LockedWorld
    requires i < |w.callers| && w.callers[i].Plain?
  {
    var x := w.callers[i].x;
    match x
    case IssueEnter(r) => if w.mutex == Unlocked then Put(w.(mutex := HeldBy(i)), i, IssueTest(r)) else w
    case StopEnter => if w.mutex == Unlocked then Put(w.(mutex := HeldBy(i)), i, StopMove([])) else w
    case IssueCommit(_) => w
    case StopFree(bin) =>
      if bin == [] then Put(w, i, Plain(Ready(0)))
      else Put(w.(e := Free(w.e, [bin[0]])), i, Plain(StopFree(bin[1..])))
    case _ =>
      var m := CallStep(w.flags, x, call);
      Put(w.(flags := m.flags), i, Plain(m.next))
  }

  function Unlock(w: LockedWorld): LockedWorld {
    w.(mutex := Unlocked)
  }

  function CallerStep(w: LockedWorld, i: nat, call: Call): LockedWorld
    requires i < |w.callers| && (w.inside == Out || w.callers[i].Plain?)
  {
    var e := w.e;
    match w.callers[i]
    case Plain(_) => PlainStep(w, i, call)
    case IssueTest(r) => Put(w, i, if w.flags.deactiving then IssueLeave else IssueAdd(r))
    case IssueAdd(r) =>
      var f, p := r.start - 1, Newcomer(e, r.start, r.dest, r.kind);
      Put(w.(e := e.(waiting := e.waiting[f := e.waiting[f] + [p]])), i, IssueFloor(r))
    case IssueFloor(r) =>
      var f := r.start - 1;
      Put(w.(e := e.(onFloor := e.onFloor[f := e.onFloor[f] + 1])), i, IssueTotal(r))
    case IssueTotal(r) =>
      var p := Newcomer(e, r.start, r.dest, r.kind);
      Put(w.(e := e.(numWaiting := e.numWaiting + 1, log := e.log.(accepted := e.log.accepted + [p]))), i, IssueLeave)
    case IssueLeave => Put(Unlock(w), i, Plain(Ready(0)))
    case StopMove(bin) =>
      if e.onboard == [] then Put(w, i, StopLeave(bin))
      else
        var bin' := bin + [e.onboard[0]];
        var rest := e.onboard[1..];
        var log := if rest == [] then e.log.(discarded := e.log.discarded + bin') else e.log;
        Put(w.(e := e.(onboard := rest, log := log)), i, StopMove(bin'))
    case StopLeave(bin) => Put(Unlock(w), i, Plain(StopFree(bin)))
  }

  /** Mutual exclusion: whoever is inside a critical section holds the mutex, and nobody else does. */
  ghost predicate Exclusive(w: LockedWorld) {
    && (w.inside != Out <==> w.mutex == HeldByScheduler)
    && (forall i :: 0 <= i < |w.callers| ==> (!w.callers[i].Plain? <==> w.mutex == HeldBy(i)))
    && (w.mutex.HeldBy? ==> w.mutex.i < |w.callers|)
  }

  /** The last test never fails in a run: a caller inside its section excludes the scheduler. */
  function LockStep(w: LockedWorld, l: Label): LockedWorld {
    match l
    case Run => RunStep(w)
    case Thread(i, call) =>
      if i < |w.callers| && (w.inside == Out || w.callers[i].Plain?) then CallerStep(w, i, call) else w
  }

  function LockExec(w: LockedWorld, ls: seq<Label>): LockedWorld
    decreases ls
  {
    if ls == [] then w else LockExec(LockStep(w, ls[0]), ls[1..])
  }
}
