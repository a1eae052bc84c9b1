/** The bookkeeping every critical section keeps: identities, counters, queues, fairness, infection. */
module Bookkeeping {
  import opened Passengers
  import opened Cabin
  import opened Critical
  import opened Sweep

  /** The cached counters. `stop_elevator` leaves `loads` alone, so it counts the discarded too. */
  ghost predicate Counted(e: Elevator) {
    && (forall f :: 0 <= f < FLOORS ==> e.onFloor[f] == |e.waiting[f]|)
    && e.numWaiting == |Flat(e.waiting)|
    && e.serviced == |e.log.delivered|
    && e.loads == |e.onboard| + |e.log.discarded| <= CAPACITY
  }

  /** Every request was checked, and everybody waits on the list of the floor they start from. */
  ghost predicate Formed(e: Elevator) {
    && (forall p :: p in e.log.accepted ==> Acceptable(p.start, p.dest, p.kind))
    && (forall f, p :: 0 <= f < FLOORS && p in e.waiting[f] ==> p.start == f + 1)
  }

  /** Nobody is lost or duplicated. */
  ghost predicate Conserved(e: Elevator) {
    && Numbered(e.log.accepted)
    && multiset(Flat(e.waiting)) + multiset(e.log.boarded) == multiset(e.log.accepted)
    && multiset(e.onboard) + multiset(e.log.delivered) + multiset(e.log.discarded) == multiset(e.log.boarded)
    && |e.log.tickets| == |e.log.boarded|
  }

  /** Every waiting list is in arrival order. */
  ghost predicate Queued(e: Elevator) {
    forall f :: 0 <= f < FLOORS ==> Ordered(e.waiting[f])
  }

  ghost predicate Ledger(e: Elevator) {
    Counted(e) && Formed(e) && Conserved(e) && Queued(e)
  }

  /** No overtaking: whoever boards, all zombies who came to that floor before are already aboard,
      and for a boarding human so is everybody. */
  ghost predicate Fair(e: Elevator) {
    forall p, j {:trigger p in e.log.accepted, e.log.boarded[j]} ::
      p in e.log.accepted && 0 <= j < |e.log.boarded| && Ahead(p, e.log.boarded[j])
      ==> p in e.log.boarded[..j]
  }

  /** `p` came to the same floor before `q`, and the rules never let `q` board first. */
  ghost predicate Ahead(p: Passenger, q: Passenger) {
    p.start == q.start && p.id < q.id && (Zombie(p) || Human(q))
  }

  ghost predicate Quarantined(e: Elevator) {
    && 0 <= e.status <= 1
    && (e.status == 0 ==> forall p :: p in e.onboard ==> Human(p))
  }

  ghost predicate CoreInv(e: Elevator) {
    Ledger(e) && Fair(e) && Quarantined(e) && OnSweep(e)
  }

  // ---------- where everybody is ----------

  lemma Accounted(e: Elevator, p: Passenger)
    requires Conserved(e)
    ensures p in e.log.accepted <==> p in Flat(e.waiting) || p in e.log.boarded
    ensures p in e.log.boarded <==> p in e.onboard || p in e.log.delivered || p in e.log.discarded
    ensures multiset(Flat(e.waiting))[p] + multiset(e.onboard)[p] + multiset(e.log.delivered)[p]
            + multiset(e.log.discarded)[p] == (if p in e.log.accepted then 1 else 0)
  {
    NumberedOnce(e.log.accepted, p);
    assert multiset(e.log.accepted)[p] == multiset(Flat(e.waiting))[p] + multiset(e.log.boarded)[p];
    assert p in e.log.accepted <==> p in multiset(e.log.accepted);
    assert p in Flat(e.waiting) <==> p in multiset(Flat(e.waiting));
    assert p in e.log.boarded <==> p in multiset(e.log.boarded);
    assert p in e.onboard <==> p in multiset(e.onboard);
    assert p in e.log.delivered <==> p in multiset(e.log.delivered);
    assert p in e.log.discarded <==> p in multiset(e.log.discarded);
  }

  lemma InQueue(e: Elevator, f: nat, p: Passenger)
    requires Conserved(e) && f < FLOORS && p in e.waiting[f]
    ensures p in e.log.accepted && p in Flat(e.waiting)
  {
    FlatMember(e.waiting, p);
    Accounted(e, p);
  }

  /** Whoever was accepted and has not boarded waits on the list of their start floor. */
  lemma StillWaiting(e: Elevator, p: Passenger)
    requires Conserved(e) && Formed(e) && p in e.log.accepted && p !in e.log.boarded
    ensures p in e.waiting[p.start - 1]
  {
    Accounted(e, p);
    FlatMember(e.waiting, p);
  }

  /** The counters only ever count people: they stay between zero and the number of requests accepted. */
  lemma CountersAddUp(e: Elevator)
    requires Ledger(e)
    ensures e.numWaiting + e.loads + e.serviced == |e.log.accepted|
    ensures 0 <= e.numWaiting && 0 <= e.loads && 0 <= e.serviced
  {
    var w, b := Flat(e.waiting), e.log.boarded;
    assert |multiset(w) + multiset(b)| == |w| + |b|;
    assert |multiset(e.onboard) + multiset(e.log.delivered) + multiset(e.log.discarded)|
        == |e.onboard| + |e.log.delivered| + |e.log.discarded|;
  }

  // ---------- each critical section keeps it ----------

  lemma EnqueueCounts(e: Elevator, start: int, dest: int, kind: int)
    requires Counted(e) && 1 <= start <= FLOORS
    ensures Counted(Enqueue(e, start, dest, kind))
  {
    FlatUpdate(e.waiting, start - 1, e.waiting[start - 1] + [Newcomer(e, start, dest, kind)]);
  }

  lemma EnqueueConserves(e: Elevator, start: int, dest: int, kind: int)
    requires Conserved(e) && 1 <= start <= FLOORS
    ensures Conserved(Enqueue(e, start, dest, kind))
  {
    var f, p := start - 1, Newcomer(e, start, dest, kind);
    var q := e.waiting[f] + [p];
    FlatExchange(e.waiting, f, q, multiset{}, multiset{p});
    Added(multiset(Flat(e.waiting)), multiset(Flat(e.waiting[f := q])), multiset(e.log.boarded),
          multiset(e.log.accepted), multiset{p});
    assert multiset(e.log.accepted + [p]) == multiset(e.log.accepted) + multiset{p};
  }

  lemma Added(w: multiset<Passenger>, w': multiset<Passenger>, b: multiset<Passenger>,
              all: multiset<Passenger>, x: multiset<Passenger>)
    requires w' + multiset{} == w + x && w + b == all
    ensures w' + b == all + x
  {
    assert w' == w' + multiset{} == w + x;
  }

  lemma EnqueueQueues(e: Elevator, start: int, dest: int, kind: int)
    requires Conserved(e) && Formed(e) && Queued(e) && Acceptable(start, dest, kind)
    ensures Formed(Enqueue(e, start, dest, kind)) && Queued(Enqueue(e, start, dest, kind))
  {
    var f, p := start - 1, Newcomer(e, start, dest, kind);
    forall x | x in e.waiting[f]
      ensures x.id < p.id
    {
      InQueue(e, f, x);
      NumberedOnce(e.log.accepted, x);
    }
    assert Ordered(e.waiting[f] + [p]);
  }

  lemma EnqueueFair(e: Elevator, start: int, dest: int, kind: int)
    requires Conserved(e) && Fair(e) && 1 <= start <= FLOORS
    ensures Fair(Enqueue(e, start, dest, kind))
  {
    var e' := Enqueue(e, start, dest, kind);
    forall x, j | x in e'.log.accepted && 0 <= j < |e'.log.boarded| && Ahead(x, e'.log.boarded[j])
      ensures x in e'.log.boarded[..j]
    {
      var q := e.log.boarded[j];
      Accounted(e, q);
      NumberedOnce(e.log.accepted, q);
      assert x in e.log.accepted;
    }
  }

  lemma EnqueueKeeps(e: Elevator, start: int, dest: int, kind: int)
    requires CoreInv(e) && Acceptable(start, dest, kind)
    ensures CoreInv(Enqueue(e, start, dest, kind))
  {
    EnqueueCounts(e, start, dest, kind);
    EnqueueConserves(e, start, dest, kind);
    EnqueueQueues(e, start, dest, kind);
    EnqueueFair(e, start, dest, kind);
  }

  lemma UnloadShape(e: Elevator)
    ensures Unload(e).onboard == Staying(e.onboard, e.floor)
    ensures Unload(e).log == e.log.(delivered := e.log.delivered + Outgoing(e))
    ensures Unload(e).loads == e.loads - |Outgoing(e)| && Unload(e).serviced == e.serviced + |Outgoing(e)|
  {
    assert e.onboard[0..] == e.onboard && e.onboard[..0] == [];
  }

  lemma UnloadConserves(e: Elevator)
    requires Conserved(e)
    ensures Conserved(Unload(e))
  {
    UnloadShape(e);
    UnloadSplits(e.onboard, e.floor);
    var stay, out := multiset(Unload(e).onboard), multiset(Outgoing(e));
    var d, x := multiset(e.log.delivered), multiset(e.log.discarded);
    assert multiset(e.log.delivered + Outgoing(e)) == d + out;
    assert stay + (d + out) + x == (out + stay) + d + x;
  }

  lemma UnloadKeeps(e: Elevator)
    requires CoreInv(e)
    ensures CoreInv(Unload(e))
  {
    UnloadConserves(e);
    UnloadShape(e);
    UnloadSplits(e.onboard, e.floor);
  }

  lemma LoadShape(e: Elevator)
    ensures Load(e).onboard == e.onboard + Incoming(e)
    ensures Load(e).log.boarded == e.log.boarded + Incoming(e)
    ensures Load(e).loads == e.loads + |Incoming(e)|
    ensures Load(e).numWaiting == e.numWaiting - |Incoming(e)|
    ensures Load(e).waiting
            == e.waiting[e.floor - 1 := Board(Queue(e), e.floor, e.loads, e.status).left]
  {
    var r := Board(Queue(e), e.floor, e.loads, e.status);
    assert Queue(Mark(e))[0..] == Queue(e);
    assert Queue(Mark(e))[..0] + r.left == r.left;
    BoardSplits(Queue(e), e.floor, e.loads, e.status);
  }

  lemma LoadCounts(e: Elevator)
    requires Counted(e)
    ensures Counted(Load(e))
  {
    LoadShape(e);
    var f, r := e.floor - 1, Board(Queue(e), e.floor, e.loads, e.status);
    BoardSplits(Queue(e), e.floor, e.loads, e.status);
    FlatUpdate(e.waiting, f, r.left);
  }

  lemma LoadConserves(e: Elevator)
    requires Conserved(e)
    ensures Conserved(Load(e))
  {
    LoadShape(e);
    var f, r := e.floor - 1, Board(Queue(e), e.floor, e.loads, e.status);
    BoardSplits(Queue(e), e.floor, e.loads, e.status);
    FlatExchange(e.waiting, f, r.left, multiset(r.aboard), multiset{});
    assert multiset(e.log.boarded + r.aboard) == multiset(e.log.boarded) + multiset(r.aboard);
    assert multiset(e.onboard + r.aboard) == multiset(e.onboard) + multiset(r.aboard);
    Regroup(multiset(Flat(Load(e).waiting)), multiset(r.aboard), multiset(Flat(e.waiting)),
            multiset(e.log.boarded), multiset(e.log.accepted));
  }

  lemma Regroup(w': multiset<Passenger>, x: multiset<Passenger>, w: multiset<Passenger>,
                b: multiset<Passenger>, all: multiset<Passenger>)
    requires w' + x == w && w + b == all
    ensures w' + (b + x) == all
  {
  }

  lemma LoadQueues(e: Elevator)
    requires Formed(e) && Queued(e)
    ensures Formed(Load(e)) && Queued(Load(e))
  {
    LoadShape(e);
    BoardSplits(Queue(e), e.floor, e.loads, e.status);
    BoardOrder(Queue(e), e.floor, e.loads, e.status);
  }

  /** One traversal lets nobody overtake: `p` waits and may not be passed by `q`, who boards. */
  lemma BoardsAhead(e: Elevator, p: Passenger, j: nat)
    requires Queued(e) && Quarantined(e) && Acceptable(p.start, p.dest, p.kind)
    requires p in e.waiting[p.start - 1] && j < |Incoming(e)| && Ahead(p, Incoming(e)[j])
    ensures p in Incoming(e)[..j]
  {
    var q, s := Queue(e), Incoming(e);
    BoardSplits(q, e.floor, e.loads, e.status);
    BoardOrder(q, e.floor, e.loads, e.status);
    assert s[j] in s;
    var a :| 0 <= a < |q| && q[a] == p;
    var b :| 0 <= b < |q| && q[b] == s[j];
    BoardFair(q, e.floor, e.loads, e.status, a, b);
    var k :| 0 <= k < |s| && s[k] == p;
    assert s[..j][k] == p;
  }

  lemma LoadFair(e: Elevator)
    requires Conserved(e) && Formed(e) && Queued(e) && Quarantined(e) && Fair(e)
    ensures Fair(Load(e))
  {
    LoadShape(e);
    var e', n := Load(e), |e.log.boarded|;
    forall p, j | p in e'.log.accepted && 0 <= j < |e'.log.boarded| && Ahead(p, e'.log.boarded[j])
      ensures p in e'.log.boarded[..j]
    {
      if j < n {
        assert e'.log.boarded[..j] == e.log.boarded[..j];
      } else {
        assert e'.log.boarded[..j] == e.log.boarded + Incoming(e)[..j - n];
        if p !in e.log.boarded {
          StillWaiting(e, p);
          BoardsAhead(e, p, j - n);
        }
      }
    }
  }

  lemma LoadQuarantines(e: Elevator)
    requires Quarantined(e)
    ensures Quarantined(Load(e))
  {
    LoadShape(e);
    assert Queue(Mark(e))[0..] == Queue(e);
    BoardInfection(Queue(e), e.floor, e.loads, e.status);
  }

  lemma LoadKeepsLedger(e: Elevator)
    requires Ledger(e)
    ensures Ledger(Load(e))
  {
    LoadCounts(e);
    LoadConserves(e);
    LoadQueues(e);
  }

  lemma LoadKeeps(e: Elevator)
    requires CoreInv(e)
    ensures CoreInv(Load(e))
  {
    LoadKeepsLedger(e);
    LoadFair(e);
    LoadQuarantines(e);
  }

  /** With no room left `loadPassengers` would change nothing, so the test before it saves time only. */
  lemma FullCabinLoadsNobody(e: Elevator)
    requires e.loads >= 10
    ensures Load(e) == Mark(e)
  {
    var m, q := Mark(e), Queue(e);
    FullBoard(q, e.floor, e.loads, e.status);
    assert q[0..] == q && q[..0] + q == q;
    assert m.waiting[e.floor - 1 := q] == m.waiting;
    assert m.onFloor[e.floor - 1 := m.onFloor[e.floor - 1] - 0] == m.onFloor;
    assert m.onboard + [] == m.onboard && m.log.boarded + [] == m.log.boarded;
    assert m.log.tickets + Tickets(m.log, 0) == m.log.tickets;
  }

  lemma {:induction false} FullBoard(q: seq<Passenger>, floor: int, loads: int, status: int)
    requires loads >= CAPACITY
    ensures Board(q, floor, loads, status) == Split([], q, loads, status)
  {
    if q != [] {
      FullBoard(q[1..], floor, loads, status);
    }
  }

  lemma DiscardKeeps(e: Elevator)
    requires CoreInv(e)
    ensures CoreInv(Discard(e))
  {
    assert multiset(Discard(e).log.discarded) == multiset(e.log.discarded) + multiset(e.onboard);
  }

  /** Whatever leaves the lists, the counters and the history of passengers alone, clears the status
      of an empty cabin at most, and stays on the sweep. */
  lemma MinorKeeps(e: Elevator, e': Elevator)
    requires CoreInv(e) && OnSweep(e')
    requires e' == e.(motion := e'.motion, status := e'.status, floor := e'.floor, next := e'.next,
                      log := e.log.(freed := e'.log.freed, moves := e'.log.moves, rounds := e'.log.rounds))
    requires e'.status == e.status || (e.loads == 0 && e'.status == 0)
    ensures CoreInv(e')
  {
  }

  /** What `unloadPassengers` does outside the lock, and setting the motion. */
  lemma OutsideKeeps(e: Elevator, s: seq<Passenger>, m: Motion)
    requires CoreInv(e)
    ensures CoreInv(Disinfect(Free(e, s))) && CoreInv(e.(motion := m))
  {
    MinorKeeps(e, Disinfect(Free(e, s)));
    MinorKeeps(e, e.(motion := m));
  }

  lemma MoveKeeps(e: Elevator)
    requires CoreInv(e) && e.motion == Heading(e)
    ensures CoreInv(EndRound(Move(e)))
  {
    MoveKeepsSweep(e);
    MinorKeeps(e, EndRound(Move(e)));
  }
}
