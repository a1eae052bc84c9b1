/** The path of the cabin: up and down the building with a period of 18 moves. */
module Sweep {
  import opened Passengers
  import opened Cabin

  const PERIOD := 18

  /** The floor reached by the `m`-th move after setup. */
  function FloorAt(m: nat): int {
    var k := m % PERIOD;
    if k <= 9 then k + 1 else 19 - k
  }

  ghost predicate OnSweep(e: Elevator) {
    && e.floor == FloorAt(e.log.moves)
    && e.next == FloorAt(e.log.moves + 1)
  }

  lemma SweepClosedForm(e: Elevator)
    requires OnSweep(e)
    ensures var k := e.log.moves % 18;
            && e.floor == (if k <= 9 then k + 1 else 19 - k)
            && e.next == (if k < 9 then e.floor + 1 else e.floor - 1)
  {
    var k := e.log.moves % PERIOD;
    assert (e.log.moves + 1) % PERIOD == (k + 1) % PERIOD;
  }

  /** The path goes on as it went, but turns at either end. */
  lemma SweepTurns(m: nat)
    ensures var f, g, h := FloorAt(m), FloorAt(m + 1), FloorAt(m + 2);
      && 1 <= f <= FLOORS && 1 <= g <= FLOORS && (g == f + 1 || g == f - 1)
      && h == (if g == FLOORS then FLOORS - 1 else if g == 1 then 2 else g + (g - f))
  {
    var k := m % PERIOD;
    assert (m + 1) % PERIOD == (k + 1) % PERIOD;
    assert (m + 2) % PERIOD == (k + 2) % PERIOD;
  }

  /** One move lands on the announced floor, keeps the sweep, and reverses only at either end. */
  lemma MoveKeepsSweep(e: Elevator)
    requires OnSweep(e) && e.motion == Heading(e)
    ensures OnSweep(Move(e))
    ensures Move(e).floor == e.next && Move(e).log.moves == e.log.moves + 1
    ensures Heading(Move(e)) != e.motion <==> Move(e).floor == 1 || Move(e).floor == FLOORS
  {
    hide FloorAt;
    SweepTurns(e.log.moves);
  }

  /** Any 18 consecutive moves visit every floor. */
  function NextVisit(m: nat, floor: int): (v: nat)
    requires 1 <= floor <= FLOORS
    ensures m <= v < m + PERIOD && FloorAt(v) == floor
  {
    var v := m + (floor - 1 - m) % PERIOD;
    assert v % PERIOD == (floor - 1) % PERIOD;
    v
  }
}
