/** Bounded delivery: however many requests and stops arrive, nobody rides for more than one period. */
module Delivery {
  import opened Passengers
  import opened Cabin
  import opened Critical
  import opened Sweep
  import opened Bookkeeping
  import opened AtomicMachine
  import opened Runs

  /** Between unloading at this floor and the next move. */
  predicate PastUnload(pc: Pc) {
    pc != TestWaiting && pc != TestOnboard && pc != Unloading && pc != Resting
  }

  function Seen(w: World): nat {
    w.e.log.moves + if PastUnload(w.sched.pc) then 1 else 0
  }

  /** `p` boarded at its start floor, the cabin has moved in every round since, and has not unloaded
      at its destination since. */
  ghost predicate Riding(l: Log, seen: nat, p: Passenger, t: Ticket) {
    && t.move <= l.moves && t.move < seen && t.round <= l.rounds
    && l.rounds - t.round == l.moves - t.move
    && FloorAt(t.move) == p.start
    && forall m :: t.move < m < seen ==> FloorAt(m) != p.dest
  }

  ghost predicate OnTime(e: Elevator, seen: nat) {
    && |e.log.tickets| == |e.log.boarded|
    && forall k :: 0 <= k < |e.log.boarded| && e.log.boarded[k] in e.onboard
         ==> Riding(e.log, seen, e.log.boarded[k], e.log.tickets[k])
  }

  ghost predicate Prompt(w: World) {
    OnTime(w.e, Seen(w))
  }

  lemma UnloadPrompt(e: Elevator)
    requires OnSweep(e) && OnTime(e, e.log.moves)
    ensures OnTime(Unload(e), e.log.moves + 1)
  {
    assert e.onboard[0..] == e.onboard;
    UnloadSplits(e.onboard, e.floor);
  }

  lemma LoadPrompt(e: Elevator)
    requires Conserved(e) && OnSweep(e) && OnTime(e, e.log.moves + 1)
    ensures OnTime(Load(e), e.log.moves + 1)
  {
    var e', s, n := Load(e), Incoming(e), |e.log.boarded|;
    LoadShape(e);
    assert Queue(Mark(e))[0..] == Queue(e);
    assert e'.log.tickets == e.log.tickets + Tickets(Mark(e).log, |s|);
    BoardSplits(Queue(e), e.floor, e.loads, e.status);
    forall k | 0 <= k < |e'.log.boarded| && e'.log.boarded[k] in e'.onboard
      ensures Riding(e'.log, e.log.moves + 1, e'.log.boarded[k], e'.log.tickets[k])
    {
      if k < n {
        var p := e.log.boarded[k];
        if p in s {
          InQueue(e, e.floor - 1, p);
          Accounted(e, p);
        }
        assert Riding(e.log, e.log.moves + 1, p, e.log.tickets[k]);
      } else {
        assert e'.log.boarded[k] == s[k - n] && s[k - n] in s;
      }
    }
  }

  lemma MovePrompt(e: Elevator)
    requires OnSweep(e) && e.motion == Heading(e) && OnTime(e, e.log.moves + 1)
    ensures OnTime(EndRound(Move(e)), e.log.moves + 1)
  {
    var e' := EndRound(Move(e));
    assert e'.log == e.log.(moves := e.log.moves + 1, rounds := e.log.rounds + 1);
    forall k | 0 <= k < |e'.log.boarded| && e'.log.boarded[k] in e'.onboard
      ensures Riding(e'.log, e.log.moves + 1, e'.log.boarded[k], e'.log.tickets[k])
    {
      assert Riding(e.log, e.log.moves + 1, e.log.boarded[k], e.log.tickets[k]);
    }
  }

  /** What no step changes but those of unloading, loading and moving. */
  lemma OtherPrompt(w: World)
    requires Prompt(w) && w.sched.pc != Unloading && w.sched.pc != Boarding && w.sched.pc != Moving
    requires EmptyWhenFound(w)
    ensures Prompt(SchedStep(w))
  {
    SchedFrame(w);
    OtherFrame(w);
    if FoundEmpty(w.sched.pc) { assert SchedStep(w).e.onboard == []; }
  }

  lemma OtherFrame(w: World)
    requires w.sched.pc != Unloading && w.sched.pc != Boarding && w.sched.pc != Moving
    ensures var l, l' := w.e.log, SchedStep(w).e.log;
      && l'.boarded == l.boarded && l'.tickets == l.tickets && l'.moves == l.moves
      && SchedStep(w).e.onboard == w.e.onboard
      && (FoundEmpty(w.sched.pc) || (l'.rounds == l.rounds && Seen(SchedStep(w)) == Seen(w)))
  {
  }

  lemma SectionPrompt(w: World)
    requires CoreInv(w.e) && Prompt(w) && (w.sched.pc == Unloading || w.sched.pc == Boarding)
    ensures Prompt(SchedStep(w))
  {
    hide OnTime, Ledger, Fair, Quarantined, Load, Unload;
    if w.sched.pc == Unloading { UnloadsPrompt(w.e); } else { LoadsPrompt(w.e); }
  }

  lemma UnloadsPrompt(e: Elevator)
    requires OnSweep(e) && OnTime(e, e.log.moves)
    ensures OnTime(Unload(e), e.log.moves + 1) && Unload(e).log.moves == e.log.moves
  {
    hide OnTime;
    UnloadPrompt(e);
  }

  lemma LoadsPrompt(e: Elevator)
    requires CoreInv(e) && OnTime(e, e.log.moves + 1)
    ensures OnTime(Load(e), e.log.moves + 1) && Load(e).log.moves == e.log.moves
  {
    hide OnTime;
    LoadPrompt(e);
  }

  lemma MovesPrompt(w: World)
    requires OnSweep(w.e) && Prompt(w) && w.sched.pc == Moving
    ensures Prompt(SchedStep(w))
  {
    hide OnTime;
    MovePrompt(w.e);
  }

  lemma RunPrompt(w: World)
    requires Inv(w) && Prompt(w)
    ensures Prompt(SchedStep(w))
  {
    hide SchedStep, Prompt;
    if w.sched.pc == Unloading || w.sched.pc == Boarding {
      SectionPrompt(w);
    } else if w.sched.pc == Moving {
      MovesPrompt(w);
    } else {
      OtherPrompt(w);
    }
  }

  lemma StepPrompt(w: World, l: Label)
    requires Inv(w) && Prompt(w)
    ensures Prompt(Step(w, l))
  {
    hide SchedStep, Inv;
    match l
    case Run => RunPrompt(w);
    case Thread(i, call) => if i < |w.threads| { ThreadFrame(w, i, call); }
  }

  lemma {:induction false} ExecPrompt(w: World, ls: seq<Label>)
    requires Inv(w) && Prompt(w)
    ensures Prompt(Exec(w, ls))
    decreases ls
  {
    if ls != [] {
      StepKeeps(w, ls[0]);
      StepPrompt(w, ls[0]);
      ExecPrompt(Step(w, ls[0]), ls[1..]);
    }
  }

  /** In every state of every run, whoever is on board boarded at most 18 rounds of the scheduler, and
      exactly as many moves, ago; 17 if their destination is not where they started. */
  lemma DeliveredWithinOnePeriod(n: nat, ls: seq<Label>, k: nat)
    requires k < |Exec(Init(n), ls).e.log.boarded|
    requires Exec(Init(n), ls).e.log.boarded[k] in Exec(Init(n), ls).e.onboard
    ensures |Exec(Init(n), ls).e.log.tickets| == |Exec(Init(n), ls).e.log.boarded|
    ensures var l := Exec(Init(n), ls).e.log;
            var p, t := l.boarded[k], l.tickets[k];
            && l.rounds - t.round == l.moves - t.move
            && 0 <= l.moves - t.move <= (if p.start == p.dest then PERIOD else PERIOD - 1)
  {
    hide SchedStep, Exec, StatusRight, AllOwned, Separated, Fair, Quarantined;
    var w := Exec(Init(n), ls);
    InitInv(n);
    ExecPrompt(Init(n), ls);
    Always(n, ls);
    var l, p := w.e.log, w.e.log.boarded[k];
    var t := l.tickets[k];
    assert Riding(l, Seen(w), p, t);
    Accounted(w.e, p);
    var v := NextVisit(t.move + 1, p.dest);
    var u := NextVisit(t.move, p.dest);
    assert v >= Seen(w);
    assert p.start != p.dest ==> u != t.move && u >= Seen(w);
  }

  /** Whoever is on board when the scheduler unloads has ridden for one move at least, has not been at
      their destination since they boarded, and gets off now if and only if this is their destination. */
  lemma GetsOffAtFirstVisit(n: nat, ls: seq<Label>, k: nat)
    requires Exec(Init(n), ls).sched.pc == Unloading && k < |Exec(Init(n), ls).e.log.boarded|
    requires Exec(Init(n), ls).e.log.boarded[k] in Exec(Init(n), ls).e.onboard
    ensures |Exec(Init(n), ls).e.log.tickets| == |Exec(Init(n), ls).e.log.boarded|
    ensures var w := Exec(Init(n), ls);
            var p, t := w.e.log.boarded[k], w.e.log.tickets[k];
      && FloorAt(t.move) == p.start && w.e.floor == FloorAt(w.e.log.moves)
      && t.move < w.e.log.moves && (forall m :: t.move < m < w.e.log.moves ==> FloorAt(m) != p.dest)
      && (if w.e.floor == p.dest then p in SchedStep(w).e.log.delivered else p in SchedStep(w).e.onboard)
  {
    var w := Exec(Init(n), ls);
    InitInv(n);
    ExecPrompt(Init(n), ls);
    Always(n, ls);
    assert Riding(w.e.log, Seen(w), w.e.log.boarded[k], w.e.log.tickets[k]);
    UnloadShape(w.e);
    UnloadSplits(w.e.onboard, w.e.floor);
  }

  /** Hence whoever boarded more than 18 rounds ago was delivered, or discarded by a stop. */
  lemma GoneAfterOnePeriod(n: nat, ls: seq<Label>, k: nat)
    requires k < |Exec(Init(n), ls).e.log.boarded|
    ensures |Exec(Init(n), ls).e.log.tickets| == |Exec(Init(n), ls).e.log.boarded|
    ensures var l := Exec(Init(n), ls).e.log;
            l.rounds - l.tickets[k].round > PERIOD
            ==> l.boarded[k] in l.delivered || l.boarded[k] in l.discarded
  {
    Always(n, ls);
    var e := Exec(Init(n), ls).e;
    Accounted(e, e.log.boarded[k]);
    if e.log.boarded[k] in e.onboard {
      DeliveredWithinOnePeriod(n, ls, k);
    }
  }
}
