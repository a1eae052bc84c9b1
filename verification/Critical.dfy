/** What the two traversals of the scheduler do to the lists, stated apart from how they do it. */
module Critical {
  import opened Passengers
  import opened Cabin

  // ---------- the onboard list ----------

  /** Unloading splits the cabin by destination, keeps the order of either part, and loses nobody. */
  lemma {:induction false} UnloadSplits(s: seq<Passenger>, floor: int)
    ensures multiset(Leaving(s, floor)) + multiset(Staying(s, floor)) == multiset(s)
    ensures |Leaving(s, floor)| + |Staying(s, floor)| == |s|
    ensures forall p :: p in Leaving(s, floor) <==> p in s && p.dest == floor
    ensures forall p :: p in Staying(s, floor) <==> p in s && p.dest != floor
  {
    if s != [] {
      UnloadSplits(s[1..], floor);
      assert s == [s[0]] + s[1..];
    }
  }

  lemma UnloadStep(e: Elevator, i: nat)
    requires i < |e.onboard|
    ensures e.onboard[i].dest != e.floor ==> UnloadFrom(e, i) == UnloadFrom(e, i + 1)
    ensures e.onboard[i].dest == e.floor ==> UnloadFrom(e, i) == UnloadFrom(LetOut(e, i), i)
    ensures Leaving(e.onboard[i..], e.floor) ==
            (if e.onboard[i].dest == e.floor then [e.onboard[i]] else []) + Leaving(e.onboard[i + 1..], e.floor)
    ensures LetOut(e, i).onboard[i..] == e.onboard[i + 1..]
  {
    var s := e.onboard;
    assert s[i..][1..] == s[i + 1..];
    if s[i].dest == e.floor {
      var e' := LetOut(e, i);
      assert e'.onboard[..i] == s[..i] && e'.onboard[i..] == s[i + 1..];
      assert e.log.delivered + Leaving(s[i..], e.floor) == e'.log.delivered + Leaving(s[i + 1..], e.floor);
    } else {
      assert s[..i] + Staying(s[i..], e.floor) == s[..i + 1] + Staying(s[i + 1..], e.floor);
    }
  }

  /** The traversal that began with `e0` is at node `i`, with `bin` in its delete list. */
  ghost predicate Alighting(e0: Elevator, e: Elevator, i: nat, bin: seq<Passenger>) {
    && i <= |e.onboard| && UnloadFrom(e, i) == Unload(e0)
    && bin + Leaving(e.onboard[i..], e.floor) == Outgoing(e0)
  }

  lemma AlightingStep(e0: Elevator, e: Elevator, i: nat, bin: seq<Passenger>)
    requires Alighting(e0, e, i, bin) && i < |e.onboard|
    ensures if e.onboard[i].dest == e.floor
            then Alighting(e0, LetOut(e, i), i, bin + [e.onboard[i]])
            else Alighting(e0, e, i + 1, bin)
  {
    UnloadStep(e, i);
    var rest := Leaving(e.onboard[i + 1..], e.floor);
    assert [] + rest == rest && bin + ([e.onboard[i]] + rest) == (bin + [e.onboard[i]]) + rest;
  }

  lemma UnloadDone(e: Elevator)
    ensures UnloadFrom(e, |e.onboard|) == e
  {
    assert e.onboard[..|e.onboard|] == e.onboard;
    assert e.log.delivered + [] == e.log.delivered;
  }

  /** The body of the traversal for a passenger who gets off. */
  function LetOut(e: Elevator, i: nat): Elevator
    requires i < |e.onboard|
  {
    var p := e.onboard[i];
    e.(onboard := Without(e.onboard, i), loads := e.loads - 1, serviced := e.serviced + 1,
       log := e.log.(delivered := e.log.delivered + [p]))
  }

  function Without(s: seq<Passenger>, i: nat): seq<Passenger>
    requires i < |s|
  {
    s[..i] + s[i + 1..]
  }

  // ---------- the waiting list of the current floor ----------

  lemma {:induction false} BoardKeepsEverybody(q: seq<Passenger>, floor: int, loads: int, status: int)
    ensures var r := Board(q, floor, loads, status);
            multiset(r.aboard) + multiset(r.left) == multiset(q)
  {
    if q != [] {
      assert q == [q[0]] + q[1..];
      var admit := Admits(q[0], floor, loads, status);
      var loads', status' := if admit then loads + 1 else loads, if admit && Zombie(q[0]) then 1 else status;
      BoardKeepsEverybody(q[1..], floor, loads', status');
    }
  }

  lemma {:induction false} BoardCounts(q: seq<Passenger>, floor: int, loads: int, status: int)
    ensures var r := Board(q, floor, loads, status);
      && |r.aboard| + |r.left| == |q|
      && r.loads == loads + |r.aboard|
      && (loads <= 10 ==> r.loads <= 10)
      && (loads >= 10 ==> r.aboard == [])
      && (forall p :: p in r.aboard ==> p.start == floor)
  {
    if q != [] {
      var admit := Admits(q[0], floor, loads, status);
      BoardCounts(q[1..], floor, if admit then loads + 1 else loads, if admit && Zombie(q[0]) then 1 else status);
    }
  }

  /** Boarding loses nobody, counts who boards, and never lets `loads` pass the capacity. */
  lemma BoardSplits(q: seq<Passenger>, floor: int, loads: int, status: int)
    ensures var r := Board(q, floor, loads, status);
      && multiset(r.aboard) + multiset(r.left) == multiset(q)
      && |r.aboard| + |r.left| == |q|
      && r.loads == loads + |r.aboard|
      && (loads <= 10 ==> r.loads <= 10)
      && (loads >= 10 ==> r.aboard == [])
      && (forall p :: p in r.aboard ==> p in q && p.start == floor)
      && (forall p :: p in r.left ==> p in q)
  {
    BoardKeepsEverybody(q, floor, loads, status);
    BoardCounts(q, floor, loads, status);
    var r := Board(q, floor, loads, status);
    assert forall p :: p in r.aboard ==> p in multiset(r.aboard) + multiset(r.left);
    assert forall p :: p in r.left ==> p in multiset(r.aboard) + multiset(r.left);
  }

  /** Both halves keep the arrival order. */
  lemma {:induction false} BoardOrder(q: seq<Passenger>, floor: int, loads: int, status: int)
    requires Ordered(q)
    ensures var r := Board(q, floor, loads, status); Ordered(r.aboard) && Ordered(r.left)
  {
    if q != [] {
      var admit := Admits(q[0], floor, loads, status);
      var loads', status' := if admit then loads + 1 else loads, if admit && Zombie(q[0]) then 1 else status;
      BoardSplits(q[1..], floor, loads', status');
      BoardOrder(q[1..], floor, loads', status');
      var r' := Board(q[1..], floor, loads', status');
      OrderedCons(q[0], r'.aboard);
      OrderedCons(q[0], r'.left);
    }
  }

  lemma OrderedCons(p: Passenger, s: seq<Passenger>)
    requires Ordered(s) && forall x :: x in s ==> p.id < x.id
    ensures Ordered([p] + s)
  {
  }

  /** The cabin is infected afterwards exactly when it was, or a zombie boarded; then no human
      boarded after that zombie, and none at all if it was infected before. */
  lemma {:induction false} BoardInfection(q: seq<Passenger>, floor: int, loads: int, status: int)
    requires 0 <= status <= 1
    ensures var r := Board(q, floor, loads, status);
      && 0 <= r.status <= 1
      && (r.status == 1 <==> status == 1 || exists p :: p in r.aboard && Zombie(p))
      && (forall p :: p in r.aboard ==> Zombie(p) || (Human(p) && status == 0))
      && (forall i, j :: 0 <= i < j < |r.aboard| && Zombie(r.aboard[i]) ==> Zombie(r.aboard[j]))
  {
    if q != [] {
      if Admits(q[0], floor, loads, status) {
        BoardInfection(q[1..], floor, loads + 1, if Zombie(q[0]) then 1 else status);
        var r := Board(q, floor, loads, status);
        assert r.aboard[0] == q[0];
      } else {
        BoardInfection(q[1..], floor, loads, status);
      }
    }
  }

  /** Maximality: who is left behind could not have boarded even at the end, since the cabin is full, or
      infected and they are human. */
  lemma {:induction false} BoardMaximal(q: seq<Passenger>, floor: int, loads: int, status: int)
    requires 0 <= status <= 1
    ensures var r := Board(q, floor, loads, status);
      forall p :: p in r.left ==>
        && !Admits(p, floor, r.loads, r.status)
        && (p.start == floor ==> r.loads >= 10 || (r.status == 1 && p.kind == 0) || (p.kind != 0 && p.kind != 1))
  {
    if q != [] {
      if Admits(q[0], floor, loads, status) {
        BoardMaximal(q[1..], floor, loads + 1, if Zombie(q[0]) then 1 else status);
        assert Board(q, floor, loads, status).left ==
               Board(q[1..], floor, loads + 1, if Zombie(q[0]) then 1 else status).left;
      } else {
        BoardMaximal(q[1..], floor, loads, status);
        BoardSplits(q[1..], floor, loads, status);
        BoardInfection(q[1..], floor, loads, status);
      }
    }
  }

  /** Nobody overtakes a zombie, and no human overtakes anybody the rules admit. */
  lemma {:induction false} BoardFair(q: seq<Passenger>, floor: int, loads: int, status: int, i: nat, j: nat)
    requires 0 <= status <= 1 && i < j < |q|
    requires q[i].start == floor && (Zombie(q[i]) || (Human(q[i]) && Human(q[j])))
    requires Ordered(q) && q[j] in Board(q, floor, loads, status).aboard
    ensures q[i] in Board(q, floor, loads, status).aboard
  {
    var admit := Admits(q[0], floor, loads, status);
    var loads', status' := if admit then loads + 1 else loads, if admit && Zombie(q[0]) then 1 else status;
    assert q[0] != q[j] && q[j] == q[1..][j - 1];
    if i > 0 {
      BoardFair(q[1..], floor, loads', status', i - 1, j - 1);
    } else if !admit {
      BoardSplits(q[1..], floor, loads, status);
      BoardInfection(q[1..], floor, loads, status);
    }
  }

  /** Whoever may board if there is room: humans before the first zombie, and every zombie. */
  function Eligible(q: seq<Passenger>, status: int): seq<Passenger> {
    if q == [] then []
    else if Zombie(q[0]) then [q[0]] + Eligible(q[1..], 1)
    else if Human(q[0]) && status == 0 then [q[0]] + Eligible(q[1..], status)
    else Eligible(q[1..], status)
  }

  function Take(s: seq<Passenger>, n: int): seq<Passenger> {
    if n <= 0 then [] else if n <= |s| then s[..n] else s
  }

  /** First fit: those who board are exactly the first eligible ones, up to the room left. */
  lemma {:induction false} BoardFirstFit(q: seq<Passenger>, floor: int, loads: int, status: int)
    requires forall p :: p in q ==> p.start == floor
    ensures Board(q, floor, loads, status).aboard == Take(Eligible(q, status), 10 - loads)
  {
    if q == [] {
    } else if loads >= 10 {
      BoardFirstFit(q[1..], floor, loads, status);
    } else if Admits(q[0], floor, loads, status) {
      BoardFirstFit(q[1..], floor, loads + 1, if Zombie(q[0]) then 1 else status);
    } else {
      BoardFirstFit(q[1..], floor, loads, status);
    }
  }

  /** The body of the traversal for a passenger who boards. */
  function LetIn(e: Elevator, i: nat): Elevator
    requires i < |Queue(e)|
  {
    var f := e.floor - 1;
    var p := Queue(e)[i];
    e.(waiting := e.waiting[f := Without(Queue(e), i)],
       onboard := e.onboard + [p],
       status := if Zombie(p) then 1 else e.status,
       loads := e.loads + 1,
       onFloor := e.onFloor[f := e.onFloor[f] - 1],
       numWaiting := e.numWaiting - 1,
       log := e.log.(boarded := e.log.boarded + [p], tickets := e.log.tickets + [Stamp(e.log)]))
  }

  /** Somebody boards from the `i`-th node on. */
  predicate Someone(e: Elevator, i: nat)
    requires i <= |Queue(e)|
  {
    Board(Queue(e)[i..], e.floor, e.loads, e.status).aboard != []
  }

  lemma LoadStep(e: Elevator, i: nat)
    requires i < |Queue(e)|
    ensures !Admits(Queue(e)[i], e.floor, e.loads, e.status) ==> LoadFrom(e, i) == LoadFrom(e, i + 1)
    ensures Admits(Queue(e)[i], e.floor, e.loads, e.status) ==> LoadFrom(e, i) == LoadFrom(LetIn(e, i), i)
    ensures if Admits(Queue(e)[i], e.floor, e.loads, e.status) then Someone(e, i)
            else Someone(e, i) == Someone(e, i + 1)
  {
    var q := Queue(e);
    assert q[i..][1..] == q[i + 1..];
    var r := Board(q[i..], e.floor, e.loads, e.status);
    if Admits(q[i], e.floor, e.loads, e.status) {
      var e' := LetIn(e, i);
      var r' := Board(q[i + 1..], e.floor, e'.loads, e'.status);
      assert Queue(e')[..i] == q[..i] && Queue(e')[i..] == q[i + 1..];
      assert r.aboard == [q[i]] + r'.aboard && r.left == r'.left;
      assert e.onboard + r.aboard == e'.onboard + r'.aboard;
      assert e.log.boarded + r.aboard == e'.log.boarded + r'.aboard;
      assert Stamp(e.log) == Stamp(e'.log);
      assert e.log.tickets + Tickets(e.log, |r.aboard|) == e'.log.tickets + Tickets(e'.log, |r'.aboard|);
      assert LoadFrom(e, i).waiting == LoadFrom(e', i).waiting;
      assert LoadFrom(e, i).onFloor == LoadFrom(e', i).onFloor;
    } else {
      assert q[..i] + r.left == q[..i + 1] + Board(q[i + 1..], e.floor, e.loads, e.status).left;
    }
  }

  /** The traversal from the first node on is the whole of it. */
  lemma LoadBegins(e: Elevator)
    ensures LoadFrom(Mark(e), 0) == Load(e)
    ensures Someone(Mark(e), 0) <==> Incoming(e) != []
  {
    assert Queue(Mark(e))[0..] == Queue(e);
  }

  lemma LetInFrame(e: Elevator, i: nat)
    requires i < |Queue(e)|
    ensures LetIn(e, i).floor == e.floor && |Queue(LetIn(e, i))| == |Queue(e)| - 1
  {
  }

  lemma LoadDone(e: Elevator)
    ensures LoadFrom(e, |Queue(e)|) == e && !Someone(e, |Queue(e)|)
  {
    var q := Queue(e);
    var r := Board(q[|q|..], e.floor, e.loads, e.status);
    assert r == Split([], [], e.loads, e.status);
    assert q[..|q|] + [] == q && e.waiting[e.floor - 1 := q] == e.waiting;
    assert e.onFloor[e.floor - 1 := e.onFloor[e.floor - 1]] == e.onFloor;
    assert e.onboard + [] == e.onboard && e.log.boarded + [] == e.log.boarded;
    assert e.log.tickets + Tickets(e.log, 0) == e.log.tickets;
  }
}
