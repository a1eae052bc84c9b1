/** What holds in every state of every run, whatever the interleaving. */
module Runs {
  import opened Passengers
  import opened Cabin
  import opened Critical
  import opened Sweep
  import opened Bookkeeping
  import opened AtomicMachine

  // ---------- ownership of nodes ----------

  function BinOf(x: Local): seq<Passenger> {
    if x.StopFree? then x.bin else []
  }

  function Bins(ts: seq<Local>): seq<seq<Passenger>> {
    seq(|ts|, i requires 0 <= i < |ts| => BinOf(ts[i]))
  }

  /** Every node that left the lists was freed once, or one thread still holds it in its delete list. */
  ghost predicate Owned(l: Log, bin: seq<Passenger>, bins: seq<Passenger>) {
    multiset(l.freed) + multiset(bin) + multiset(bins) == multiset(l.delivered) + multiset(l.discarded)
  }

  ghost predicate AllOwned(w: World) {
    Owned(w.e.log, w.sched.bin, Flat(Bins(w.threads)))
  }

  // ---------- infection ----------

  ghost predicate ZombieSince(e: Elevator, k: nat) {
    exists i :: k <= i < |e.log.boarded| && Zombie(e.log.boarded[i])
  }

  predicate Unloaded(pc: Pc) {
    pc == Freeing || pc == Disinfecting
  }

  /** The status is right, except that it may be stale between unloading and line 253. */
  ghost predicate StatusRight(w: World) {
    (w.e.loads != 0 || !Unloaded(w.sched.pc))
    ==> (w.e.status == 1 <==> ZombieSince(w.e, CleanFrom(w.e)))
  }

  /** Between a zombie and any human who boards later, the cabin was empty. */
  ghost predicate Separated(e: Elevator) {
    && e.log.cleanFrom <= |e.log.boarded|
    && |e.log.tickets| == |e.log.boarded|
    && forall j :: 0 <= j < |e.log.boarded| ==> e.log.tickets[j].cleanFrom <= j && SeparatedAt(e.log, j)
  }

  ghost predicate SeparatedAt(l: Log, j: nat)
    requires j < |l.boarded| == |l.tickets|
  {
    Human(l.boarded[j]) ==>
      forall i :: 0 <= i < j && Zombie(l.boarded[i]) ==> i < l.tickets[j].cleanFrom
  }

  // ---------- the invariant ----------

  /** Places where the scheduler has found the cabin empty. */
  predicate FoundEmpty(pc: Pc) {
    pc == TestQueues || pc == TestStop || pc == Retiring || pc == Resting
  }

  ghost predicate EmptyWhenFound(w: World) {
    && (FoundEmpty(w.sched.pc) ==> w.e.onboard == [])
    && (FoundEmpty(w.sched.pc) && w.sched.pc != Resting ==> w.e.loads == 0)
  }

  /** The cabin only moves while somebody is on board or waits. */
  ghost predicate BusyWhenMoving(w: World) {
    w.sched.pc == Turning || w.sched.pc == Moving ==> w.e.loads != 0 || w.e.numWaiting != 0
  }

  ghost predicate Inv(w: World) {
    && CoreInv(w.e) && AllOwned(w) && StatusRight(w) && Separated(w.e)
    && EmptyWhenFound(w) && BusyWhenMoving(w)
  }

  lemma BinsUpdate(ts: seq<Local>, i: nat, x: Local)
    requires i < |ts|
    ensures Bins(ts[i := x]) == Bins(ts)[i := BinOf(x)]
    ensures BinOf(ts[i]) == BinOf(x) ==> Flat(Bins(ts[i := x])) == Flat(Bins(ts))
  {
    assert Bins(ts)[i := Bins(ts)[i]] == Bins(ts);
  }

  // ---------- steps of the scheduler ----------

  /** What the other steps of the scheduler leave alone. */
  lemma MinorFrame(w: World)
    requires w.sched.pc != Unloading && w.sched.pc != Boarding && w.sched.pc != Moving
    ensures var e, e' := w.e, SchedStep(w).e;
      && e' == e.(motion := e'.motion, status := e'.status,
                  log := e.log.(freed := e'.log.freed, rounds := e'.log.rounds))
      && (e'.status == e.status || (e.loads == 0 && e'.status == 0))
  {
    hide Load, Unload, Outgoing, Incoming, Move;
  }

  lemma MinorKeepsCore(w: World)
    requires CoreInv(w.e) && w.sched.pc != Unloading && w.sched.pc != Boarding && w.sched.pc != Moving
    ensures CoreInv(SchedStep(w).e)
  {
    hide SchedStep, Ledger, Fair, Quarantined;
    MinorFrame(w);
    MinorKeeps(w.e, SchedStep(w).e);
  }

  lemma SchedKeepsCore(w: World)
    requires CoreInv(w.e)
    ensures CoreInv(SchedStep(w).e)
  {
    hide CoreInv, Load, Unload;
    match w.sched.pc
    case Unloading => UnloadKeeps(w.e);
    case Boarding => LoadKeeps(w.e);
    case Moving => MoveKeeps(w.e);
    case _ => MinorKeepsCore(w);
  }

  /** Handing `s` over to a delete list that was empty, as delivered or as discarded. */
  lemma Handed(l: Log, s: seq<Passenger>, bins: seq<Passenger>)
    requires Owned(l, [], bins)
    ensures Owned(l.(delivered := l.delivered + s), s, bins)
  {
    var f, d, x, b, m := multiset(l.freed), multiset(l.delivered), multiset(l.discarded), multiset(bins), multiset(s);
    assert f + m + b == (f + multiset([]) + b) + m == (d + m) + x;
    assert multiset(l.delivered + s) == d + m;
  }

  lemma FreedFirst(l: Log, bin: seq<Passenger>, bins: seq<Passenger>)
    requires bin != [] && Owned(l, bin, bins)
    ensures Owned(l.(freed := l.freed + [bin[0]]), bin[1..], bins)
  {
    assert bin == [bin[0]] + bin[1..];
    assert multiset(l.freed + [bin[0]]) == multiset(l.freed) + multiset{bin[0]};
  }

  lemma SchedFrame(w: World)
    ensures SchedStep(w).threads == w.threads
    ensures w.sched.pc != Unloading && (w.sched.pc != Freeing || w.sched.bin == []) ==>
              var w' := SchedStep(w);
              && w'.e.log.freed == w.e.log.freed && w'.e.log.delivered == w.e.log.delivered
              && w'.e.log.discarded == w.e.log.discarded && w'.sched.bin == w.sched.bin
    ensures w.sched.pc != Unloading && w.sched.pc != Boarding ==>
              var w' := SchedStep(w);
              && w'.e.log.boarded == w.e.log.boarded && w'.e.log.tickets == w.e.log.tickets
              && w'.e.log.cleanFrom == w.e.log.cleanFrom && w'.e.loads == w.e.loads
              && w'.e.onboard == w.e.onboard
              && (w.sched.pc != Disinfecting ==> w'.e.status == w.e.status)
  {
  }

  lemma SchedKeepsOwned(w: World)
    requires AllOwned(w)
    ensures AllOwned(SchedStep(w))
  {
    SchedFrame(w);
    var bins := Flat(Bins(w.threads));
    if w.sched.pc == Unloading {
      assert w.e.onboard[0..] == w.e.onboard;
      Handed(w.e.log, Outgoing(w.e), bins);
    } else if w.sched.pc == Freeing && w.sched.bin != [] {
      FreedFirst(w.e.log, w.sched.bin, bins);
    } else {
      assert SchedStep(w).sched.bin == w.sched.bin;
    }
  }

  lemma LoadSeparates(e: Elevator)
    requires Separated(e) && Quarantined(e)
    requires e.status == 1 <==> ZombieSince(e, CleanFrom(e))
    ensures Separated(Load(e))
  {
    var e', s, n := Load(e), Incoming(e), |e.log.boarded|;
    LoadShape(e);
    BoardInfection(Queue(e), e.floor, e.loads, e.status);
    assert Queue(Mark(e))[0..] == Queue(e);
    assert e'.log.tickets == e.log.tickets + Tickets(Mark(e).log, |s|);
    forall j | 0 <= j < |e'.log.boarded|
      ensures e'.log.tickets[j].cleanFrom <= j && SeparatedAt(e'.log, j)
    {
      if j < n {
        assert SeparatedAt(e.log, j);
      } else {
        assert e'.log.boarded[j] == s[j - n] && s[j - n] in s;
      }
    }
  }

  lemma LoadInfects(e: Elevator)
    requires Quarantined(e) && e.log.cleanFrom <= |e.log.boarded| && e.loads >= 0
    requires e.status == 1 <==> ZombieSince(e, CleanFrom(e))
    ensures Load(e).status == 1 <==> ZombieSince(Load(e), CleanFrom(Load(e)))
  {
    var e', s, n, since := Load(e), Incoming(e), |e.log.boarded|, CleanFrom(e);
    LoadShape(e);
    BoardInfection(Queue(e), e.floor, e.loads, e.status);
    assert Queue(Mark(e))[0..] == Queue(e);
    assert s == [] ==> e'.log.boarded == e.log.boarded;
    assert CleanFrom(e') == since;
    if p :| p in s && Zombie(p) {
      var i :| 0 <= i < |s| && s[i] == p;
      assert Zombie(e'.log.boarded[n + i]);
    }
    if i :| since <= i < n && Zombie(e.log.boarded[i]) {
      assert Zombie(e'.log.boarded[i]);
    }
    if i :| since <= i < |e'.log.boarded| && Zombie(e'.log.boarded[i]) {
      if i < n { assert Zombie(e.log.boarded[i]); } else { assert s[i - n] in s; }
    }
  }

  lemma LoadKeepsStatus(w: World)
    requires CoreInv(w.e) && Separated(w.e) && StatusRight(w) && w.sched.pc == Boarding
    ensures StatusRight(SchedStep(w)) && Separated(SchedStep(w).e)
  {
    hide Load, Fair, Separated, ZombieSince, CleanFrom;
    LoadsNotNegative(w.e);
    LoadMayInfect(w.e);
  }

  lemma LoadsNotNegative(e: Elevator)
    requires Counted(e)
    ensures e.loads >= 0
  {
  }

  lemma LoadMayInfect(e: Elevator)
    requires Quarantined(e) && Separated(e) && e.loads >= 0
    requires e.status == 1 <==> ZombieSince(e, CleanFrom(e))
    ensures Separated(Load(e)) && (Load(e).status == 1 <==> ZombieSince(Load(e), CleanFrom(Load(e))))
  {
    hide Load, ZombieSince, CleanFrom, SeparatedAt;
    LoadSeparates(e);
    LoadInfects(e);
  }

  /** What does not touch the history of boarding keeps it separated. */
  lemma SameBoarding(e: Elevator, e': Elevator)
    requires Separated(e) && e'.log.boarded == e.log.boarded && e'.log.tickets == e.log.tickets
    requires e'.log.cleanFrom == e.log.cleanFrom
    ensures Separated(e')
    ensures forall k: nat :: ZombieSince(e', k) <==> ZombieSince(e, k)
  {
    forall j | 0 <= j < |e'.log.boarded|
      ensures e'.log.tickets[j].cleanFrom <= j && SeparatedAt(e'.log, j)
    {
      assert SeparatedAt(e.log, j);
    }
  }

  lemma NoneSinceLast(e: Elevator)
    ensures !ZombieSince(e, |e.log.boarded|)
  {
  }

  lemma UnloadFrame(e: Elevator)
    requires Counted(e)
    ensures Unload(e).status == e.status && (Unload(e).loads != 0 ==> e.loads != 0)
    ensures Unload(e).log == e.log.(delivered := e.log.delivered + Outgoing(e))
  {
    UnloadShape(e);
    UnloadSplits(e.onboard, e.floor);
  }

  lemma UnloadKeepsStatus(w: World)
    requires Counted(w.e) && Separated(w.e) && StatusRight(w) && w.sched.pc == Unloading
    ensures StatusRight(SchedStep(w)) && Separated(SchedStep(w).e)
  {
    hide Separated, ZombieSince, Unload, Outgoing;
    UnloadFrame(w.e);
    SameBoarding(w.e, SchedStep(w).e);
  }

  lemma OtherKeepsStatus(w: World)
    requires Separated(w.e) && StatusRight(w) && w.sched.pc != Unloading && w.sched.pc != Boarding
    ensures StatusRight(SchedStep(w)) && Separated(SchedStep(w).e)
  {
    hide Separated, ZombieSince, Load, Unload, Outgoing, Incoming;
    SchedFrame(w);
    SameBoarding(w.e, SchedStep(w).e);
    NoneSinceLast(w.e);
  }

  lemma SchedKeepsStatus(w: World)
    requires CoreInv(w.e) && Separated(w.e) && StatusRight(w)
    ensures StatusRight(SchedStep(w)) && Separated(SchedStep(w).e)
  {
    hide SchedStep, StatusRight, Separated;
    if w.sched.pc == Boarding {
      LoadKeepsStatus(w);
    } else if w.sched.pc == Unloading {
      UnloadKeepsStatus(w);
    } else {
      OtherKeepsStatus(w);
    }
  }

  lemma SchedKeepsFound(w: World)
    requires Counted(w.e) && EmptyWhenFound(w)
    ensures EmptyWhenFound(SchedStep(w))
  {
  }

  lemma SchedKeepsBusy(w: World)
    requires BusyWhenMoving(w)
    ensures BusyWhenMoving(SchedStep(w))
  {
  }

  lemma SchedKeeps(w: World)
    requires Inv(w)
    ensures Inv(SchedStep(w))
  {
    SchedKeepsCore(w);
    SchedKeepsOwned(w);
    SchedKeepsStatus(w);
    SchedKeepsFound(w);
    SchedKeepsBusy(w);
  }

  // ---------- steps of the system calls ----------

  lemma ThreadFrame(w: World, i: nat, call: Call)
    requires i < |w.threads|
    ensures var w' := ThreadStep(w, i, call);
      && w'.sched == w.sched && w'.threads == w.threads[i := w'.threads[i]]
      && w'.e.loads == w.e.loads && w'.e.status == w.e.status && w'.e.floor == w.e.floor
      && w'.e.log.boarded == w.e.log.boarded && w'.e.log.tickets == w.e.log.tickets
      && w'.e.log.cleanFrom == w.e.log.cleanFrom && w'.e.log.moves == w.e.log.moves
      && w'.e.log.rounds == w.e.log.rounds && w'.e.log.delivered == w.e.log.delivered
      && (w'.e.onboard == w.e.onboard || w'.e.onboard == [])
      && (w'.e.numWaiting == w.e.numWaiting || w'.e.numWaiting == w.e.numWaiting + 1)
  {
  }

  /** What a step of a system call does to the delete lists and to the history of nodes. */
  lemma ThreadBins(w: World, i: nat, call: Call)
    requires i < |w.threads|
    ensures var w', x, l := ThreadStep(w, i, call), w.threads[i], w.e.log;
      && w'.sched.bin == w.sched.bin
      && Bins(w'.threads) == Bins(w.threads)[i := BinOf(w'.threads[i])] && Bins(w.threads)[i] == BinOf(x)
      && (if x.StopEnter? then
            w'.e.log == l.(discarded := l.discarded + w.e.onboard) && BinOf(w'.threads[i]) == w.e.onboard
          else if BinOf(x) != [] then
            w'.e.log == l.(freed := l.freed + [BinOf(x)[0]]) && BinOf(w'.threads[i]) == BinOf(x)[1..]
          else
            w'.e.log == l.(accepted := w'.e.log.accepted) && BinOf(w'.threads[i]) == BinOf(x))
  {
    BinsUpdate(w.threads, i, ThreadStep(w, i, call).threads[i]);
  }

  lemma ThreadKeepsOwned(w: World, i: nat, call: Call)
    requires i < |w.threads| && AllOwned(w)
    ensures AllOwned(ThreadStep(w, i, call))
  {
    ThreadBins(w, i, call);
    var x, bins := w.threads[i], Bins(w.threads);
    if x.StopEnter? {
      ThreadDiscards(w.e.log, w.sched.bin, bins, i, w.e.onboard);
    } else if BinOf(x) != [] {
      ThreadFrees(w.e.log, w.sched.bin, bins, i);
    } else {
      assert bins[i := bins[i]] == bins;
    }
  }

  lemma ThreadDiscards(l: Log, bin: seq<Passenger>, bins: seq<seq<Passenger>>, i: nat, s: seq<Passenger>)
    requires i < |bins| && bins[i] == [] && Owned(l, bin, Flat(bins))
    ensures Owned(l.(discarded := l.discarded + s), bin, Flat(bins[i := s]))
  {
    FlatExchange(bins, i, s, multiset{}, multiset(s));
    var m, b, b' := multiset(s), multiset(Flat(bins)), multiset(Flat(bins[i := s]));
    assert b' == b' + multiset{} == b + m;
    var f := multiset(l.freed) + multiset(bin);
    assert f + b' == (f + b) + m == multiset(l.delivered) + (multiset(l.discarded) + m);
    assert multiset(l.discarded + s) == multiset(l.discarded) + m;
  }

  lemma ThreadFrees(l: Log, bin: seq<Passenger>, bins: seq<seq<Passenger>>, i: nat)
    requires i < |bins| && bins[i] != [] && Owned(l, bin, Flat(bins))
    ensures Owned(l.(freed := l.freed + [bins[i][0]]), bin, Flat(bins[i := bins[i][1..]]))
  {
    var s := bins[i];
    assert s == [s[0]] + s[1..];
    FlatExchange(bins, i, s[1..], multiset{s[0]}, multiset{});
    var m, b, b' := multiset{s[0]}, multiset(Flat(bins)), multiset(Flat(bins[i := s[1..]]));
    assert b' + m == b + multiset{} == b;
    assert (multiset(l.freed) + m) + multiset(bin) + b' == multiset(l.freed) + multiset(bin) + (b' + m);
    assert multiset(l.freed + [s[0]]) == multiset(l.freed) + m;
  }

  lemma FreeKeeps(e: Elevator, s: seq<Passenger>)
    requires CoreInv(e)
    ensures CoreInv(Free(e, s))
  {
    MinorKeeps(e, Free(e, s));
  }

  lemma ThreadKeepsCore(w: World, i: nat, call: Call)
    requires i < |w.threads| && CoreInv(w.e)
    ensures CoreInv(ThreadStep(w, i, call).e)
  {
    hide CoreInv;
    match w.threads[i]
    case IssueCommit(r) => EnqueueKeeps(w.e, r.start, r.dest, r.kind);
    case StopEnter => DiscardKeeps(w.e);
    case StopFree(bin) => FreeKeeps(w.e, if bin == [] then [] else [bin[0]]);
    case _ =>
  }

  lemma ThreadKeeps(w: World, i: nat, call: Call)
    requires i < |w.threads| && Inv(w)
    ensures Inv(ThreadStep(w, i, call))
  {
    ThreadFrame(w, i, call);
    ThreadKeepsOwned(w, i, call);
    ThreadKeepsCore(w, i, call);
    assert w.e.numWaiting >= 0;
  }

  // ---------- runs ----------

  lemma SetupLedger()
    ensures Ledger(Setup())
  {
    var e: Elevator := Setup();
    assert forall f :: 0 <= f < FLOORS ==> e.waiting[f] == [];
    FlatEmpty(e.waiting);
    assert Counted(e) && Formed(e) && Queued(e);
  }

  lemma SetupInv()
    ensures CoreInv(Setup())
  {
    hide Ledger;
    SetupLedger();
    SetupFair();
  }

  lemma SetupFair()
    ensures Fair(Setup()) && Quarantined(Setup()) && OnSweep(Setup())
  {
    hide Flat;
    var l := Setup().log;
    assert l.accepted == [] && l.boarded == [] && Setup().onboard == [];
  }

  lemma InitOwned(n: nat)
    ensures AllOwned(Init(n))
  {
    FlatEmpty(Bins(Init(n).threads));
  }

  lemma InitInv(n: nat)
    ensures Inv(Init(n))
  {
    SetupInv();
    InitOwned(n);
  }

  lemma StepKeeps(w: World, l: Label)
    requires Inv(w)
    ensures Inv(Step(w, l))
  {
    match l
    case Run => SchedKeeps(w);
    case Thread(i, call) => if i < |w.threads| { ThreadKeeps(w, i, call); }
  }

  lemma {:induction false} ExecKeeps(w: World, ls: seq<Label>)
    requires Inv(w)
    ensures Inv(Exec(w, ls))
    decreases ls
  {
    if ls != [] {
      StepKeeps(w, ls[0]);
      ExecKeeps(Step(w, ls[0]), ls[1..]);
    }
  }

  lemma Always(n: nat, ls: seq<Label>)
    ensures Inv(Exec(Init(n), ls))
  {
    InitInv(n);
    ExecKeeps(Init(n), ls);
  }
}
