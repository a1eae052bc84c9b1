/**
 The data of part3/elevator.c and its critical sections as functions on values.
 Everything here ignores the mutex and the lifecycle flags.
 */
module Cabin {
  import opened Passengers

  datatype Motion = Offline | Idle | Loading | Up | Down

  /** When a passenger boarded: moves and rounds of the scheduler completed by then, and how many
      passengers had boarded when the cabin was last empty. */
  datatype Ticket = Ticket(move: nat, round: nat, cleanFrom: nat)

  /** History of a run. The program does not store it and never reads it. */
  datatype Log = Log(
    accepted: seq<Passenger>, boarded: seq<Passenger>, tickets: seq<Ticket>,
    delivered: seq<Passenger>, discarded: seq<Passenger>, freed: seq<Passenger>,
    moves: nat, rounds: nat, cleanFrom: nat)

  /** The globals of the program: the eleven lists, the counters, and the sweep. */
  datatype Core = Core(
    waiting: seq<seq<Passenger>>, onFloor: seq<int>, numWaiting: int,
    onboard: seq<Passenger>, loads: int, serviced: int, status: int,
    motion: Motion, floor: int, next: int, log: Log)
  {
    predicate Shaped() {
      && |waiting| == FLOORS && |onFloor| == FLOORS
      && 1 <= floor <= FLOORS && 1 <= next <= FLOORS
      && (next == floor + 1 || next == floor - 1)
    }
  }

  type Elevator = e: Core | e.Shaped() witness Setup()

  function Setup(): Core {
    Core(seq(FLOORS, _ => []), seq(FLOORS, _ => 0), 0,
         [], 0, 0, 0, Offline, 1, 2, Log([], [], [], [], [], [], 0, 0, 0))
  }

  // ---------- issue_request ----------

  function Newcomer(e: Elevator, start: int, dest: int, kind: int): Passenger {
    Passenger(|e.log.accepted|, kind, start, dest)
  }

  function Enqueue(e: Elevator, start: int, dest: int, kind: int): Elevator
    requires 1 <= start <= FLOORS
  {
    var p := Newcomer(e, start, dest, kind);
    var f := start - 1;
    e.(waiting := e.waiting[f := e.waiting[f] + [p]],
       onFloor := e.onFloor[f := e.onFloor[f] + 1],
       numWaiting := e.numWaiting + 1,
       log := e.log.(accepted := e.log.accepted + [p]))
  }

  // ---------- unloadPassengers ----------

  function Leaving(s: seq<Passenger>, floor: int): seq<Passenger> {
    if s == [] then []
    else (if s[0].dest == floor then [s[0]] else []) + Leaving(s[1..], floor)
  }

  function Staying(s: seq<Passenger>, floor: int): seq<Passenger> {
    if s == [] then []
    else (if s[0].dest == floor then [] else [s[0]]) + Staying(s[1..], floor)
  }

  /** The traversal of the onboard list, from the `i`-th node on. */
  function UnloadFrom(e: Elevator, i: nat): Elevator
    requires i <= |e.onboard|
  {
    var out := Leaving(e.onboard[i..], e.floor);
    e.(onboard := e.onboard[..i] + Staying(e.onboard[i..], e.floor),
       loads := e.loads - |out|,
       serviced := e.serviced + |out|,
       log := e.log.(delivered := e.log.delivered + out))
  }

  function Unload(e: Elevator): Elevator {
    UnloadFrom(e, 0)
  }

  function Outgoing(e: Elevator): seq<Passenger> {
    Leaving(e.onboard, e.floor)
  }

  function Disinfect(e: Elevator): Elevator {
    if e.loads == 0 then e.(status := 0) else e
  }

  // ---------- loadPassengers ----------

  /** What one traversal of a waiting list does: who boards, who stays, and the two variables it tests. */
  datatype Split = Split(aboard: seq<Passenger>, left: seq<Passenger>, loads: int, status: int)

  predicate Admits(p: Passenger, floor: int, loads: int, status: int) {
    p.start == floor && loads + 1 <= CAPACITY && (Zombie(p) || (Human(p) && status == 0))
  }

  function Board(q: seq<Passenger>, floor: int, loads: int, status: int): Split {
    if q == [] then Split([], [], loads, status)
    else if Admits(q[0], floor, loads, status) then
      var r := Board(q[1..], floor, loads + 1, if Zombie(q[0]) then 1 else status);
      r.(aboard := [q[0]] + r.aboard)
    else
      var r := Board(q[1..], floor, loads, status);
      r.(left := [q[0]] + r.left)
  }

  function Queue(e: Elevator): seq<Passenger> {
    e.waiting[e.floor - 1]
  }

  function Stamp(l: Log): Ticket {
    Ticket(l.moves, l.rounds, l.cleanFrom)
  }

  function Tickets(l: Log, n: nat): seq<Ticket> {
    seq(n, _ => Stamp(l))
  }

  /** The traversal of the current floor's list, from the `i`-th node on. */
  function LoadFrom(e: Elevator, i: nat): Elevator
    requires i <= |Queue(e)|
  {
    var f := e.floor - 1;
    var r := Board(Queue(e)[i..], e.floor, e.loads, e.status);
    var n := |r.aboard|;
    e.(waiting := e.waiting[f := Queue(e)[..i] + r.left],
       onFloor := e.onFloor[f := e.onFloor[f] - n],
       numWaiting := e.numWaiting - n,
       onboard := e.onboard + r.aboard,
       loads := r.loads,
       status := r.status,
       log := e.log.(boarded := e.log.boarded + r.aboard,
                     tickets := e.log.tickets + Tickets(e.log, n)))
  }

  /** How many passengers had boarded when the cabin was last empty (`loads` zero). */
  function CleanFrom(e: Elevator): nat {
    if e.loads == 0 then |e.log.boarded| else e.log.cleanFrom
  }

  /** History only: remembers `CleanFrom` before somebody boards. */
  function Mark(e: Elevator): Elevator {
    e.(log := e.log.(cleanFrom := CleanFrom(e)))
  }

  function Load(e: Elevator): Elevator {
    LoadFrom(Mark(e), 0)
  }

  function Incoming(e: Elevator): seq<Passenger> {
    Board(Queue(e), e.floor, e.loads, e.status).aboard
  }

  // ---------- stop_elevator, kfree, and the scheduler's own variables ----------

  function Discard(e: Elevator): Elevator {
    e.(onboard := [], log := e.log.(discarded := e.log.discarded + e.onboard))
  }

  function Free(e: Elevator, s: seq<Passenger>): Elevator {
    e.(log := e.log.(freed := e.log.freed + s))
  }

  function Heading(e: Elevator): Motion {
    if e.next > e.floor then Up else Down
  }

  function Turn(e: Elevator): Elevator {
    e.(motion := Heading(e))
  }

  function Move(e: Elevator): Elevator
    requires e.motion == Up ==> e.floor < FLOORS
    requires e.motion == Down ==> e.floor > 1
  {
    if e.motion == Up then
      var f := e.floor + 1;
      e.(floor := f, next := if f == FLOORS then f - 1 else f + 1, log := e.log.(moves := e.log.moves + 1))
    else if e.motion == Down then
      var f := e.floor - 1;
      e.(floor := f, next := if f == 1 then f + 1 else f - 1, log := e.log.(moves := e.log.moves + 1))
    else e
  }

  /** History only: one more iteration of the scheduler loop is over. */
  function EndRound(e: Elevator): Elevator {
    e.(log := e.log.(rounds := e.log.rounds + 1))
  }

  // ---------- teardown ----------

  function RemoveAll(e: Elevator): Elevator {
    Free(e, e.onboard + Flat(e.waiting)).(onboard := [], waiting := seq(FLOORS, _ => []))
  }
}
