/** What becomes of the elevator after a stop, when no system call follows. */
module Shutdown {
  import opened Cabin
  import opened Bookkeeping
  import opened AtomicMachine
  import opened Iteration
  import opened Drain

  /** The shutdown is over. */
  ghost predicate Down(x: Shared) {
    x.flags == Flags(false, false) && x.e.motion == Offline
  }

  /** A stop is under way while there is work, and over when there is none. */
  ghost predicate Closing(x: Shared) {
    && AtTop(x.e) && x.e.loads == |x.e.onboard| && !x.flags.started
    && (if Work(x.e) > 0 then x.flags.deactiving else Down(x))
  }

  lemma DepartFlags(x: Shared)
    ensures if x.e.loads == 0 && x.e.numWaiting == 0 && x.flags.deactiving
            then Depart(x).flags == x.flags.(deactiving := false) && Depart(x).e.motion == Offline
            else Depart(x).flags == x.flags
    ensures Rest(x).flags == x.flags && (!x.flags.started ==> Rest(x).e.motion == Offline)
  {
  }

  lemma RoundStaysHonest(x: Shared)
    requires AtTop(x.e) && x.e.loads == |x.e.onboard|
    ensures AtTop(Round(x).e) && Round(x).e.loads == |Round(x).e.onboard|
  {
    RoundKeeps(x);
    RoundOnward(x);
  }

  lemma RoundClosesFlags(x: Shared)
    requires Counted(x.e) && (x.e.loads == 0 ==> x.e.status == 0) && !x.flags.started
    requires x.e.log.discarded == [] && (if Work(x.e) > 0 then x.flags.deactiving else Down(x))
    ensures !Round(x).flags.started && (if Work(Round(x).e) > 0 then Round(x).flags.deactiving else Down(Round(x)))
  {
    var s := x.(e := Serve(x.e));
    ServeCounts(x.e);
    ServeFrame(x.e);
    DepartOnward(s);
    DepartOnward(x);
    DepartFlags(s);
    DepartFlags(x);
  }

  lemma RoundCloses(x: Shared)
    requires Closing(x)
    ensures Closing(Round(x))
  {
    RoundStaysHonest(x);
    RoundClosesFlags(x);
  }

  /** A stop that finds the cabin empty while people wait: they are all served within 36 iterations
      each, and then the elevator is offline and can be started afresh. */
  lemma GracefulStop(x: Shared, m: nat)
    requires AtTop(x.e) && x.flags == Flags(false, true)
    requires x.e.loads == 0 && x.e.numWaiting > 0 && m >= 36 * x.e.numWaiting
    ensures Down(Rounds(x, m)) && Quiet(Rounds(x, m).e)
    ensures Rounds(x, m).e.serviced == x.e.serviced + x.e.numWaiting
  {
    DrainsInTime(x, m);
    forall y | Closing(y)
      ensures Closing(Round(y))
    {
      RoundCloses(y);
    }
    Keeps(Round, (y: Shared) => Closing(y), x, m);
  }

  /** Nobody is left to serve, or the cabin counts people who are gone: the stop never completes. */
  ghost predicate Hanging(x: Shared) {
    && AtTop(x.e) && x.flags.deactiving
    && (x.e.log.discarded != [] || (x.e.onboard == [] && x.e.numWaiting == 0))
  }

  lemma RoundHangs(x: Shared)
    requires Hanging(x)
    ensures Hanging(Round(x))
  {
    var s := x.(e := Serve(x.e));
    RoundKeeps(x);
    RoundOnward(x);
    ServeWorks(x.e);
    ServeCounts(x.e);
    ServeFrame(x.e);
    DepartOnward(s);
    DepartFlags(s);
    DepartFlags(x);
  }

  /** For a stop between two iterations only: the scheduler clears `deactiving` if and only if the stop
      found `loads` zero and somebody waiting. In mid-iteration nobody need be waiting; see
      Stopping.WholeStopCompletesExactlyWhen. */
  lemma CompletesBetweenRounds(x: Shared)
    requires AtTop(x.e) && x.flags == Flags(false, true) && x.e.onboard == []
    ensures (exists m: nat :: !Rounds(x, m).flags.deactiving) <==> x.e.loads == 0 && x.e.numWaiting > 0
  {
    if x.e.loads == 0 && x.e.numWaiting > 0 {
      GracefulStop(x, 36 * x.e.numWaiting);
    } else {
      forall y | Hanging(y)
        ensures Hanging(Round(y))
      {
        RoundHangs(y);
      }
      forall m: nat
        ensures Rounds(x, m).flags.deactiving
      {
        Keeps(Round, (y: Shared) => Hanging(y), x, m);
      }
    }
  }
}
