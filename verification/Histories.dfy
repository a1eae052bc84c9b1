/** Conservation, capacity, infection, overtaking and ownership over whole runs. */
module Histories {
  import opened Passengers
  import opened Cabin
  import opened Critical
  import opened Sweep
  import opened Bookkeeping
  import opened AtomicMachine
  import opened Runs

  // ---------- histories only grow ----------

  ghost predicate Extends(l: Log, l': Log) {
    && l.accepted <= l'.accepted && l.boarded <= l'.boarded
    && l.delivered <= l'.delivered && l.discarded <= l'.discarded
    && l.freed <= l'.freed && l.moves <= l'.moves && l.rounds <= l'.rounds
  }

  lemma SectionExtends(w: World)
    requires w.sched.pc == Unloading || w.sched.pc == Boarding
    ensures Extends(w.e.log, SchedStep(w).e.log)
  {
    hide Leaving, Staying, Board;
  }

  lemma OutsideExtends(w: World)
    requires w.sched.pc != Unloading && w.sched.pc != Boarding
    ensures Extends(w.e.log, SchedStep(w).e.log)
  {
    hide Unload, Load, Outgoing, Incoming;
  }

  lemma SchedExtends(w: World)
    ensures Extends(w.e.log, SchedStep(w).e.log)
  {
    hide SchedStep, Extends;
    if w.sched.pc == Unloading || w.sched.pc == Boarding { SectionExtends(w); } else { OutsideExtends(w); }
  }

  lemma ThreadExtends(w: World, i: nat, call: Call)
    requires i < |w.threads|
    ensures Extends(w.e.log, ThreadStep(w, i, call).e.log)
  {
  }

  lemma StepExtends(w: World, l: Label)
    ensures Extends(w.e.log, Step(w, l).e.log)
  {
    hide SchedStep, ThreadStep;
    match l
    case Run => SchedExtends(w);
    case Thread(i, call) => if i < |w.threads| { ThreadExtends(w, i, call); }
  }

  lemma {:induction false} ExecExtends(w: World, ls: seq<Label>)
    ensures Extends(w.e.log, Exec(w, ls).e.log)
    decreases ls
  {
    if ls != [] {
      StepExtends(w, ls[0]);
      ExecExtends(Step(w, ls[0]), ls[1..]);
    }
  }

  // ---------- conservation by identity ----------

  datatype Place = Unknown | Waiting | Riding | Delivered | Discarded

  function PlaceOf(e: Elevator, p: Passenger): Place {
    if p in Flat(e.waiting) then Waiting
    else if p in e.onboard then Riding
    else if p in e.log.delivered then Delivered
    else if p in e.log.discarded then Discarded
    else Unknown
  }

  function Stage(x: Place): nat {
    match x
    case Unknown => 0
    case Waiting => 1
    case Riding => 2
    case _ => 3
  }

  /** Everybody accepted is in exactly one place, once, and the counters add up to their number. */
  lemma Conservation(n: nat, ls: seq<Label>, p: Passenger)
    ensures var e := Exec(Init(n), ls).e;
      && multiset(Flat(e.waiting))[p] + multiset(e.onboard)[p] + multiset(e.log.delivered)[p]
         + multiset(e.log.discarded)[p] == (if p in e.log.accepted then 1 else 0)
      && e.numWaiting + e.loads + e.serviced == |e.log.accepted|
      && 0 <= e.numWaiting && 0 <= e.loads && 0 <= e.serviced
  {
    Always(n, ls);
    Accounted(Exec(Init(n), ls).e, p);
    CountersAddUp(Exec(Init(n), ls).e);
  }

  lemma Forward(e: Elevator, e': Elevator, p: Passenger)
    requires Conserved(e) && Conserved(e') && Extends(e.log, e'.log)
    ensures Stage(PlaceOf(e, p)) <= Stage(PlaceOf(e', p))
    ensures Stage(PlaceOf(e, p)) == Stage(PlaceOf(e', p)) ==> PlaceOf(e, p) == PlaceOf(e', p)
  {
    Accounted(e, p);
    Accounted(e', p);
  }

  /** Nobody ever moves backward, and delivered or discarded is for good. */
  lemma NeverBackward(n: nat, ls: seq<Label>, more: seq<Label>, p: Passenger)
    ensures var w := Exec(Init(n), ls);
            var was, now := PlaceOf(w.e, p), PlaceOf(Exec(w, more).e, p);
            Stage(was) <= Stage(now) && (Stage(was) == Stage(now) ==> was == now)
  {
    var w := Exec(Init(n), ls);
    Always(n, ls);
    ExecKeeps(w, more);
    ExecExtends(w, more);
    Forward(w.e, Exec(w, more).e, p);
  }

  /** The cached counters agree with the lists in every state of every run. */
  lemma CountersAgree(n: nat, ls: seq<Label>)
    ensures var e := Exec(Init(n), ls).e;
      && (forall f :: 0 <= f < FLOORS ==> e.onFloor[f] == |e.waiting[f]|)
      && e.numWaiting == |Flat(e.waiting)|
  {
    Always(n, ls);
  }

  /** Every node on list `f` starts from floor `f + 1` and passed the checks of `issue_request`. */
  lemma QueuesWellFormed(n: nat, ls: seq<Label>, f: nat, p: Passenger)
    requires f < FLOORS && p in Exec(Init(n), ls).e.waiting[f]
    ensures p.start == f + 1 && Acceptable(p.start, p.dest, p.kind)
  {
    Always(n, ls);
    InQueue(Exec(Init(n), ls).e, f, p);
  }

  // ---------- the sweep ----------

  /** Where the cabin is depends only on the number of moves, whatever happened between them. */
  lemma ClosedForm(n: nat, ls: seq<Label>)
    ensures var e := Exec(Init(n), ls).e;
            var k := e.log.moves % 18;
            && e.floor == (if k <= 9 then k + 1 else 19 - k)
            && e.next == (if k < 9 then e.floor + 1 else e.floor - 1)
  {
    Always(n, ls);
    SweepClosedForm(Exec(Init(n), ls).e);
  }

  // ---------- capacity ----------

  /** Each passenger a stop discards costs one place in the cabin, for good. */
  lemma CapacityLeaks(n: nat, ls: seq<Label>, more: seq<Label>)
    ensures var w := Exec(Init(n), ls);
            var w' := Exec(w, more);
            && w.e.loads == |w.e.onboard| + |w.e.log.discarded| <= 10
            && |w'.e.onboard| <= 10 - |w.e.log.discarded|
  {
    Always(n, ls);
    ExecKeeps(Exec(Init(n), ls), more);
    ExecExtends(Exec(Init(n), ls), more);
  }

  /** Once somebody was discarded: an infected cabin stays so, and a full one admits nobody. */
  ghost predicate Stuck(e: Elevator) {
    e.log.discarded != [] && (e.status == 1 || |e.log.discarded| == CAPACITY)
  }

  ghost predicate StuckSince(e: Elevator, e': Elevator) {
    && Stuck(e')
    && e.log.boarded <= e'.log.boarded
    && (e.status == 1 ==> e'.status == 1)
    && |e.log.discarded| <= |e'.log.discarded|
    && (|e.log.discarded| == CAPACITY ==> e'.log.boarded == e.log.boarded)
    && (e.status == 1 ==> forall k :: |e.log.boarded| <= k < |e'.log.boarded| ==> Zombie(e'.log.boarded[k]))
  }

  lemma LoadStuck(e0: Elevator, e: Elevator)
    requires Counted(e) && Quarantined(e) && StuckSince(e0, e)
    ensures StuckSince(e0, Load(e))
  {
    var e', n, s := Load(e), |e.log.boarded|, Incoming(e);
    LoadShape(e);
    BoardSplits(Queue(e), e.floor, e.loads, e.status);
    BoardInfection(Queue(e), e.floor, e.loads, e.status);
    assert Queue(Mark(e))[0..] == Queue(e);
    assert s == [] ==> e'.log.boarded == e.log.boarded;
    forall k | n <= k < |e'.log.boarded|
      ensures e.status == 1 ==> Zombie(e'.log.boarded[k])
    {
      assert e'.log.boarded[k] == s[k - n] && s[k - n] in s;
    }
  }

  lemma StepStuck(e: Elevator, w: World, l: Label)
    requires Counted(w.e) && Quarantined(w.e) && StuckSince(e, w.e)
    ensures StuckSince(e, Step(w, l).e)
  {
    StepExtends(w, l);
    if l.Thread? {
      if l.i < |w.threads| { ThreadFrame(w, l.i, l.call); }
    } else if w.sched.pc == Boarding {
      LoadStuck(e, w.e);
    } else {
      SchedFrame(w);
    }
  }

  lemma {:induction false} ExecStuck(e: Elevator, w: World, ls: seq<Label>)
    requires Inv(w) && StuckSince(e, w.e)
    ensures StuckSince(e, Exec(w, ls).e)
    decreases ls
  {
    if ls != [] {
      StepStuck(e, w, ls[0]);
      StepKeeps(w, ls[0]);
      ExecStuck(e, Step(w, ls[0]), ls[1..]);
    }
  }

  /** After a stop discarded somebody, an infection never clears, so no human ever boards again; and
      after ten were discarded nobody does. */
  lemma LeakIsForever(n: nat, ls: seq<Label>, more: seq<Label>)
    requires Exec(Init(n), ls).e.log.discarded != []
    ensures var e := Exec(Init(n), ls).e;
            var e' := Exec(Exec(Init(n), ls), more).e;
      && (e.status == 1 ==> e'.status == 1)
      && (e.status == 1 ==> forall p :: p in Flat(e.waiting) && Human(p) ==> p in Flat(e'.waiting))
      && (|e.log.discarded| == 10 ==> forall p :: p in Flat(e.waiting) ==> p in Flat(e'.waiting))
  {
    var w := Exec(Init(n), ls);
    var w' := Exec(w, more);
    Always(n, ls);
    ExecKeeps(w, more);
    ExecExtends(w, more);
    if Stuck(w.e) {
      ExecStuck(w.e, w, more);
      forall p | p in Flat(w.e.waiting) && (Human(p) || |w.e.log.discarded| == CAPACITY)
        ensures p in Flat(w'.e.waiting)
      {
        LeftBehind(w.e, w'.e, p);
      }
    }
  }

  lemma LeftBehind(e: Elevator, e': Elevator, p: Passenger)
    requires Conserved(e) && Conserved(e') && Extends(e.log, e'.log)
    requires p in Flat(e.waiting)
    requires forall k :: |e.log.boarded| <= k < |e'.log.boarded| ==> e'.log.boarded[k] != p
    ensures p in Flat(e'.waiting)
  {
    Accounted(e, p);
    Accounted(e', p);
    InMultiset(e.log.boarded, p);
    InMultiset(Flat(e.waiting), p);
    NumberedOnce(e.log.accepted, p);
    assert multiset(e.log.accepted)[p] == multiset(Flat(e.waiting))[p] + multiset(e.log.boarded)[p];
  }

  // ---------- infection ----------

  /** An uninfected cabin holds humans only; at the top of the loop the status says exactly whether a
      zombie boarded since the cabin was last empty; and no human boards after a zombie until then. */
  lemma InfectionSafety(n: nat, ls: seq<Label>)
    ensures var w := Exec(Init(n), ls);
            var l := w.e.log;
      && (w.e.status == 0 ==> forall p :: p in w.e.onboard ==> Human(p))
      && (w.sched.pc == TestWaiting ==>
            (w.e.status == 1 <==> exists i :: CleanFrom(w.e) <= i < |l.boarded| && Zombie(l.boarded[i])))
      && |l.tickets| == |l.boarded|
      && (forall i, j :: 0 <= i < j < |l.boarded| && Zombie(l.boarded[i]) && Human(l.boarded[j])
            ==> i < l.tickets[j].cleanFrom <= j)
  {
    Always(n, ls);
    var w := Exec(Init(n), ls);
    var l := w.e.log;
    forall i, j | 0 <= i < j < |l.boarded| && Zombie(l.boarded[i]) && Human(l.boarded[j])
      ensures i < l.tickets[j].cleanFrom <= j
    {
      assert SeparatedAt(l, j);
    }
    assert w.sched.pc == TestWaiting ==> (w.e.status == 1 <==> ZombieSince(w.e, CleanFrom(w.e)));
  }

  // ---------- overtaking ----------

  /** Before anybody boards, every zombie who came to that floor earlier has boarded; before a human
      boards, so has everybody who came earlier. */
  lemma NoOvertaking(n: nat, ls: seq<Label>, p: Passenger, j: nat)
    requires var l := Exec(Init(n), ls).e.log;
      && p in l.accepted && j < |l.boarded|
      && p.start == l.boarded[j].start && p.id < l.boarded[j].id
      && (Zombie(p) || Human(l.boarded[j]))
    ensures p in Exec(Init(n), ls).e.log.boarded[..j]
  {
    Always(n, ls);
    assert Ahead(p, Exec(Init(n), ls).e.log.boarded[j]);
  }

  // ---------- the order of the riders ----------

  /** The onboard list is in the order of boarding. */
  ghost predicate InOrder(s: seq<Passenger>, boarded: seq<Passenger>) {
    forall i, j, a, b ::
      && 0 <= i < j < |s| && 0 <= a < |boarded| && 0 <= b < |boarded|
      && boarded[a] == s[i] && boarded[b] == s[j]
      ==> a < b
  }

  lemma {:induction false} StayingOrder(s: seq<Passenger>, floor: int, i: nat, j: nat) returns (a: nat, b: nat)
    requires i < j < |Staying(s, floor)|
    ensures a < b < |s| && s[a] == Staying(s, floor)[i] && s[b] == Staying(s, floor)[j]
  {
    var tail := s[1..];
    if s[0].dest == floor {
      a, b := StayingOrder(tail, floor, i, j);
      a, b := a + 1, b + 1;
    } else if i > 0 {
      a, b := StayingOrder(tail, floor, i - 1, j - 1);
      a, b := a + 1, b + 1;
    } else {
      UnloadSplits(tail, floor);
      assert Staying(tail, floor)[j - 1] in Staying(tail, floor);
      a := 0;
      b :| 0 < b < |s| && s[b] == Staying(s, floor)[j];
    }
  }

  lemma StayingInOrder(s: seq<Passenger>, floor: int, boarded: seq<Passenger>)
    requires InOrder(s, boarded)
    ensures InOrder(Staying(s, floor), boarded)
  {
    hide Staying;
    var t := Staying(s, floor);
    forall i, j, a, b | 0 <= i < j < |t| && 0 <= a < |boarded| && 0 <= b < |boarded|
      && boarded[a] == t[i] && boarded[b] == t[j]
      ensures a < b
    {
      var x, y := StayingOrder(s, floor, i, j);
    }
  }

  lemma UnloadOrder(e: Elevator)
    requires InOrder(e.onboard, e.log.boarded)
    ensures InOrder(Unload(e).onboard, Unload(e).log.boarded)
  {
    hide InOrder, Unload, Staying;
    UnloadShape(e);
    StayingInOrder(e.onboard, e.floor, e.log.boarded);
  }

  lemma NewcomersAreNew(e: Elevator, p: Passenger)
    requires Conserved(e) && p in Incoming(e)
    ensures p !in e.log.boarded
  {
    BoardSplits(Queue(e), e.floor, e.loads, e.status);
    InQueue(e, e.floor - 1, p);
    NumberedOnce(e.log.accepted, p);
    assert multiset(e.log.accepted)[p] == multiset(Flat(e.waiting))[p] + multiset(e.log.boarded)[p];
    InMultiset(Flat(e.waiting), p);
    InMultiset(e.log.boarded, p);
  }

  lemma LoadOrder(e: Elevator)
    requires Conserved(e) && Queued(e) && InOrder(e.onboard, e.log.boarded)
    ensures InOrder(Load(e).onboard, Load(e).log.boarded)
  {
    hide Conserved;
    LoadShape(e);
    BoardOrder(Queue(e), e.floor, e.loads, e.status);
    var s := Incoming(e);
    forall p | p in s
      ensures p !in e.log.boarded && p !in e.onboard
    {
      NewcomersAreNew(e, p);
      Accounted(e, p);
    }
    forall p | p in e.onboard
      ensures p in e.log.boarded
    {
      Accounted(e, p);
    }
    OrderAppended(e.onboard, e.log.boarded, s);
  }

  lemma OrderAppended(o: seq<Passenger>, b: seq<Passenger>, s: seq<Passenger>)
    requires InOrder(o, b) && Ordered(s)
    requires forall p :: p in s ==> p !in b
    requires forall p :: p in o ==> p in b
    ensures InOrder(o + s, b + s)
  {
    forall i, j, x, y | 0 <= i < j < |o + s| && 0 <= x < |b + s| && 0 <= y < |b + s|
      && (b + s)[x] == (o + s)[i] && (b + s)[y] == (o + s)[j]
      ensures x < y
    {
      if j < |o| {
        assert o[i] in o && o[j] in o;
      } else {
        assert (o + s)[j] in s;
        if i < |o| { assert o[i] in o; } else { assert (o + s)[i] in s; }
      }
    }
  }

  lemma StepOrder(w: World, l: Label)
    requires CoreInv(w.e) && InOrder(w.e.onboard, w.e.log.boarded)
    ensures InOrder(Step(w, l).e.onboard, Step(w, l).e.log.boarded)
  {
    hide InOrder, CoreInv, Load, Unload;
    if l.Thread? {
      if l.i < |w.threads| { ThreadOrder(w, l.i, l.call); }
    } else if w.sched.pc == Boarding {
      LoadsInOrder(w.e);
    } else if w.sched.pc == Unloading {
      UnloadOrder(w.e);
    } else {
      SchedFrame(w);
    }
  }

  lemma LoadsInOrder(e: Elevator)
    requires CoreInv(e) && InOrder(e.onboard, e.log.boarded)
    ensures InOrder(Load(e).onboard, Load(e).log.boarded)
  {
    LoadOrder(e);
  }

  lemma ThreadOrder(w: World, i: nat, call: Call)
    requires i < |w.threads| && InOrder(w.e.onboard, w.e.log.boarded)
    ensures InOrder(ThreadStep(w, i, call).e.onboard, ThreadStep(w, i, call).e.log.boarded)
  {
    ThreadFrame(w, i, call);
  }

  lemma {:induction false} ExecOrder(w: World, ls: seq<Label>)
    requires Inv(w) && InOrder(w.e.onboard, w.e.log.boarded)
    ensures InOrder(Exec(w, ls).e.onboard, Exec(w, ls).e.log.boarded)
    decreases ls
  {
    hide Step, InOrder;
    if ls != [] {
      StepOrder(w, ls[0]);
      StepKeeps(w, ls[0]);
      ExecOrder(Step(w, ls[0]), ls[1..]);
    }
  }

  /** In every run the riders are listed in the order in which they boarded. */
  lemma RidersInOrder(n: nat, ls: seq<Label>, i: nat, j: nat, a: nat, b: nat)
    requires var e := Exec(Init(n), ls).e;
      && i < j < |e.onboard| && a < |e.log.boarded| && b < |e.log.boarded|
      && e.log.boarded[a] == e.onboard[i] && e.log.boarded[b] == e.onboard[j]
    ensures a < b
  {
    InitInv(n);
    ExecOrder(Init(n), ls);
  }

  // ---------- memory ----------

  ghost predicate Held(w: World, p: Passenger) {
    p in Flat(w.e.waiting) || p in w.e.onboard || p in w.sched.bin || p in Flat(Bins(w.threads))
  }

  lemma FreedOnce(e: Elevator, bin: seq<Passenger>, bins: seq<Passenger>, p: Passenger)
    requires Conserved(e) && Owned(e.log, bin, bins)
    ensures var held := p in Flat(e.waiting) || p in e.onboard || p in bin || p in bins;
      && multiset(e.log.freed)[p] <= 1
      && (p in e.log.accepted <==> p in e.log.freed || held)
      && !(p in e.log.freed && held)
  {
    Accounted(e, p);
    var f, b, s := multiset(e.log.freed), multiset(bin), multiset(bins);
    var gone := multiset(e.log.delivered) + multiset(e.log.discarded);
    assert f[p] + b[p] + s[p] == gone[p];
    InMultiset(e.log.freed, p);
    InMultiset(bin, p);
    InMultiset(bins, p);
    InMultiset(Flat(e.waiting), p);
    InMultiset(e.onboard, p);
  }

  lemma InMultiset(s: seq<Passenger>, p: Passenger)
    ensures p in s <==> multiset(s)[p] > 0
  {
    assert p in s <==> p in multiset(s);
  }

  /** No node is freed twice, none is freed while a list or a thread can still reach it, and none that
      has not been freed is lost. */
  lemma FreedAtMostOnce(n: nat, ls: seq<Label>, p: Passenger)
    ensures var w := Exec(Init(n), ls);
      && multiset(w.e.log.freed)[p] <= 1
      && (p in w.e.log.accepted <==> p in w.e.log.freed || Held(w, p))
      && !(p in w.e.log.freed && Held(w, p))
  {
    var w := Exec(Init(n), ls);
    Always(n, ls);
    FreedOnce(w.e, w.sched.bin, Flat(Bins(w.threads)), p);
  }

  /** No system call is in progress. */
  ghost predicate NoneInFlight(w: World) {
    forall i :: 0 <= i < |w.threads| ==> w.threads[i].Ready?
  }

  lemma RemoveAllFrees(e: Elevator)
    requires Conserved(e) && Owned(e.log, [], [])
    ensures multiset(RemoveAll(e).log.freed) == multiset(e.log.accepted)
  {
    var f, d, x := multiset(e.log.freed), multiset(e.log.delivered), multiset(e.log.discarded);
    var o, w := multiset(e.onboard), multiset(Flat(e.waiting));
    assert f == f + multiset([]) + multiset([]) == d + x;
    assert multiset(RemoveAll(e).log.freed) == f + (o + w) == w + (o + d + x);
  }

  lemma RemoveAllFreesOnce(e: Elevator, p: Passenger)
    requires Conserved(e) && Owned(e.log, [], [])
    ensures multiset(RemoveAll(e).log.freed)[p] == (if p in e.log.accepted then 1 else 0)
    ensures RemoveAll(e).onboard == [] && Flat(RemoveAll(e).waiting) == []
  {
    RemoveAllFrees(e);
    NumberedOnce(e.log.accepted, p);
    InMultiset(e.log.accepted, p);
    FlatEmpty(RemoveAll(e).waiting);
  }

  /** Unloading the module with no call in progress frees every node exactly once and empties all lists;
      the counters stay as they were. */
  lemma TeardownFreesAll(n: nat, ls: seq<Label>, p: Passenger)
    requires NoneInFlight(Exec(Init(n), ls)) && Exec(Init(n), ls).sched.pc == TestWaiting
    ensures var e' := RemoveAll(Exec(Init(n), ls).e);
      && multiset(e'.log.freed)[p] == (if p in e'.log.accepted then 1 else 0)
      && e'.onboard == [] && Flat(e'.waiting) == []
      && e' == Exec(Init(n), ls).e.(onboard := [], waiting := e'.waiting,
                                    log := Exec(Init(n), ls).e.log.(freed := e'.log.freed))
  {
    var w := Exec(Init(n), ls);
    Always(n, ls);
    FlatEmpty(Bins(w.threads));
    RemoveAllFreesOnce(w.e, p);
  }
}
