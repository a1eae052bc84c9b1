/** Runs in which the cabin fills up: the room for ten is there. */
module Filling {
  import opened Passengers
  import opened Cabin
  import opened Critical
  import opened Bookkeeping
  import opened AtomicMachine
  import opened Drain
  import opened Undisturbed
  import opened SystemCalls

  /** The elevator was started, and `k` humans wait for it on the ground floor. */
  ghost predicate Lobby(w: World, k: nat) {
    && w.sched == FRESH && w.threads == [Ready(0)] && w.flags == Flags(true, false)
    && w.e.onboard == [] && w.e.loads == 0 && w.e.status == 0 && w.e.floor == 1 && w.e.numWaiting == k
    && |w.e.waiting[0]| == k && forall p :: p in w.e.waiting[0] ==> Human(p) && p.start == 1
  }

  lemma LobbyOpens() returns (w: World)
    ensures Reachable(1, w) && Lobby(w, 0)
  {
    var w0: World := Init(1);
    assert Exec(w0, []) == w0 && w0.threads == [Ready(0)] && w0.threads[0 := Ready(0)] == w0.threads;
    w := Whole(w0, 0, CallStart);
    WholeIsUninterrupted(w0, 0, CallStart);
    ReachableBy(1, w0, Thread(0, CallStart), w);
  }

  lemma OneMoreWaits(w: World, k: nat) returns (w': World)
    requires Reachable(1, w) && Lobby(w, k)
    ensures Reachable(1, w') && Lobby(w', k + 1)
  {
    var call := CallIssue(Request(1, 2, 0));
    w' := Whole(w, 0, call);
    assert w.threads[0 := Ready(0)] == w.threads;
    WholeIsUninterrupted(w, 0, call);
    ReachableBy(1, w, Thread(0, call), w');
  }

  lemma {:induction false} LobbyFills(k: nat) returns (w: World)
    ensures Reachable(1, w) && Lobby(w, k)
    decreases k
  {
    if k == 0 {
      w := LobbyOpens();
    } else {
      var v := LobbyFills(k - 1);
      w := OneMoreWaits(v, k - 1);
    }
  }

  lemma {:induction false} HumansEligible(q: seq<Passenger>)
    requires forall p :: p in q ==> Human(p)
    ensures Eligible(q, 0) == q
  {
    if q != [] {
      HumansEligible(q[1..]);
    }
  }

  /** In one iteration as many of them board as find room. */
  lemma ManyBoard(x: Shared)
    requires x.e.onboard == [] && x.e.loads == 0 && x.e.status == 0 && x.e.numWaiting > 0
    requires forall p :: p in Queue(x.e) ==> Human(p) && p.start == x.e.floor
    ensures var e' := Round(x).e;
      && e'.onboard == Take(Queue(x.e), 10) && e'.loads == |e'.onboard|
      && e'.numWaiting == x.e.numWaiting - |e'.onboard|
  {
    var e1 := Alight(x.e);
    UnloadShape(x.e);
    HumansEligible(Queue(x.e));
    BoardFirstFit(Queue(e1), e1.floor, 0, 0);
    LoadShape(e1);
    DepartOnward(x.(e := Serve(x.e)));
  }

  lemma FirstVisit(w: World, k: nat) returns (w': World)
    requires Reachable(1, w) && Lobby(w, k) && k > 0
    ensures Reachable(1, w') && w'.e.onboard == Take(w.e.waiting[0], 10)
    ensures w'.e.loads == |w'.e.onboard| && w'.e.numWaiting == k - |w'.e.onboard|
  {
    hide Round, Exec, Reachable;
    var x := Shared(w.e, w.flags);
    ManyBoard(x);
    ReachesRound(w);
    w' := With(w, Round(x));
    ReachableBy(1, w, Run, w');
  }

  /** However many wait for the first visit, ten of them ride, and all if they are fewer. */
  lemma CabinFills(k: nat)
    ensures exists w :: Reachable(1, w) && |w.e.onboard| == (if k <= 10 then k else 10)
              && w.e.loads == |w.e.onboard| && w.e.numWaiting == k - |w.e.onboard|
  {
    var w := LobbyFills(k);
    if k > 0 {
      var w' := FirstVisit(w, k);
    }
  }
}
