/** The functions of part3/elevator.c over its globals, one method each, run without interruption. */
module ElevatorModule {
  import opened Passengers
  import opened Cabin
  import opened Critical
  import opened AtomicMachine
  import opened Iteration
  import opened Drain
  import opened SystemCalls

  class Driver {
    var state: Motion
    var currentFloor: int
    var nextFloor: int
    var loads: int
    var deactiving: bool
    var started: bool
    var status: int
    var onboard: seq<Passenger>
    const waitingList: array<seq<Passenger>>
    var serviced: int
    var numWaiting: int
    const waitingOnFloor: array<int>
    /** Stands for the addresses `kmalloc` returns: nodes are told apart by the order of allocation. */
    var nodes: nat
    ghost var log: Log

    ghost predicate Valid()
      reads this
    {
      && waitingList.Length == FLOORS && waitingOnFloor.Length == FLOORS
      && 1 <= currentFloor <= FLOORS && 1 <= nextFloor <= FLOORS
      && (nextFloor == currentFloor + 1 || nextFloor == currentFloor - 1)
      && nodes == |log.accepted|
    }

    /** The lists and counters as a value. */
    ghost function Data(): Elevator
      requires Valid()
      reads this, waitingList, waitingOnFloor
    {
      Core(waitingList[..], waitingOnFloor[..], numWaiting, onboard, loads, serviced, status,
           state, currentFloor, nextFloor, log)
    }

    /** Everything the threads share. */
    ghost function All(): Shared
      requires Valid()
      reads this, waitingList, waitingOnFloor
    {
      Shared(Data(), Flags(started, deactiving))
    }

    /** `setup_elevator`. `num_waiting` and `status` start at zero as C statics do. */
    constructor ()
      ensures Valid() && fresh(waitingList) && fresh(waitingOnFloor)
      ensures All() == Shared(Setup(), Flags(false, false))
    {
      state, currentFloor, nextFloor, loads := Offline, 1, 2, 0;
      deactiving, started, status := false, false, 0;
      onboard, serviced, numWaiting, nodes := [], 0, 0, 0;
      waitingList := new seq<Passenger>[FLOORS];
      waitingOnFloor := new int[FLOORS];
      log := Log([], [], [], [], [], [], 0, 0, 0);
      new;
      for i := 0 to FLOORS
        invariant Valid() && fresh(waitingList) && fresh(waitingOnFloor)
        invariant forall j :: 0 <= j < i ==> waitingList[j] == [] && waitingOnFloor[j] == 0
        invariant All() == Shared(Setup().(waiting := waitingList[..], onFloor := waitingOnFloor[..]),
                                  Flags(false, false))
      {
        waitingList[i] := [];
        waitingOnFloor[i] := 0;
      }
      assert waitingList[..] == Setup().waiting && waitingOnFloor[..] == Setup().onFloor;
    }

    // ---------- system calls ----------

    method StartElevator() returns (result: int)
      requires Valid()
      modifies this
      ensures Valid() && All() == Outcome(old(All()), CallStart).x
      ensures result == Outcome(old(All()), CallStart).result
    {
      if started {
        return 1;
      }
      started := true;
      deactiving := false;
      return 0;
    }

    method IssueRequest(start: int, dest: int, kind: int) returns (result: int)
      requires Valid()
      modifies this, waitingList, waitingOnFloor
      ensures Valid() && All() == Outcome(old(All()), CallIssue(Request(start, dest, kind))).x
      ensures result == Outcome(old(All()), CallIssue(Request(start, dest, kind))).result
    {
      if !started {
        return 1;
      }
      if kind < 0 || kind > 1 {
        return 1;
      }
      if start < 1 || start > FLOORS {
        return 1;
      }
      if dest < 1 || dest > FLOORS {
        return 1;
      }
      if !deactiving {
        ghost var e := Data();
        var p := Passenger(nodes, kind, start, dest);
        waitingList[start - 1] := waitingList[start - 1] + [p];
        waitingOnFloor[start - 1] := waitingOnFloor[start - 1] + 1;
        numWaiting := numWaiting + 1;
        nodes, log := nodes + 1, log.(accepted := log.accepted + [p]);
        assert Data().waiting == Enqueue(e, start, dest, kind).waiting;
        assert Data().onFloor == Enqueue(e, start, dest, kind).onFloor;
      }
      return 0;
    }

    /** Moves everybody on board to a delete list. */
    method TakeRiders() returns (deleteList: seq<Passenger>)
      requires Valid()
      modifies this`onboard
      ensures onboard == [] && deleteList == old(onboard)
    {
      ghost var riders := onboard;
      deleteList := [];
      while onboard != []
        invariant deleteList + onboard == riders
        decreases |onboard|
      {
        deleteList := deleteList + [onboard[0]];
        onboard := onboard[1..];
      }
    }

    method StopElevator() returns (result: int)
      requires Valid()
      modifies this
      ensures Valid() && All() == Outcome(old(All()), CallStop).x
      ensures result == Outcome(old(All()), CallStop).result
    {
      hide Enqueue, Free;
      ghost var e := Data();
      if !started {
        return 1;
      }
      if deactiving {
        return 1;
      }
      deactiving := true;
      started := false;
      var deleteList := TakeRiders();
      log := log.(discarded := log.discarded + deleteList);
      assert Data() == Discard(e);
      FreeNodes(deleteList);
      return 0;
    }

    /** `list_del` and `kfree` for every node of a delete list. */
    method FreeNodes(list: seq<Passenger>)
      requires Valid()
      modifies this`log
      ensures Valid() && Data() == Free(old(Data()), list)
    {
      ghost var e, k := Data(), 0;
      var deleteList := list;
      assert e.log.freed + [] == e.log.freed;
      while deleteList != []
        invariant Valid() && k <= |list| && deleteList == list[k..]
        invariant Data() == Free(e, list[..k])
        decreases |deleteList|
      {
        assert list[..k + 1] == list[..k] + [list[k]];
        log := log.(freed := log.freed + [deleteList[0]]);
        deleteList := deleteList[1..];
        k := k + 1;
      }
    }

    // ---------- the scheduler thread ----------

    /** `list_move_tail` off the onboard list, and the counters. */
    method AlightAt(i: nat)
      requires Valid() && i < |onboard|
      modifies this`onboard, this`loads, this`serviced, this`log
      ensures Valid() && Data() == LetOut(old(Data()), i)
    {
      log := log.(delivered := log.delivered + [onboard[i]]);
      onboard := Without(onboard, i);
      loads := loads - 1;
      serviced := serviced + 1;
    }

    /** The traversal of the onboard list under the lock. */
    method AlightAll() returns (unloaded: bool, deleteList: seq<Passenger>)
      requires Valid()
      modifies this`onboard, this`loads, this`serviced, this`log
      ensures Valid() && Data() == Unload(old(Data()))
      ensures deleteList == Outgoing(old(Data())) && (unloaded <==> deleteList != [])
    {
      ghost var e := Data();
      unloaded, deleteList := false, [];
      var i := 0;
      assert e.onboard[0..] == e.onboard;
      while i < |onboard|
        invariant Valid() && Alighting(e, Data(), i, deleteList)
        invariant unloaded <==> deleteList != []
        decreases |onboard| - i
      {
        var p := onboard[i];
        AlightingStep(e, Data(), i, deleteList);
        if p.dest == currentFloor {
          AlightAt(i);
          deleteList := deleteList + [p];
          unloaded := true;
        } else {
          i := i + 1;
        }
      }
      UnloadDone(Data());
    }

    method UnloadPassengers() returns (unloaded: bool)
      requires Valid()
      modifies this`onboard, this`loads, this`serviced, this`status, this`log
      ensures Valid() && Data() == Alight(old(Data()))
      ensures unloaded <==> Outgoing(old(Data())) != []
    {
      var deleteList;
      unloaded, deleteList := AlightAll();
      FreeNodes(deleteList);
      if loads == 0 {
        status := 0;
      }
    }

    /** `list_move_tail` onto the onboard list, the status, and the counters. */
    method BoardAt(floor: int, i: nat)
      requires Valid() && floor == currentFloor && i < |Queue(Data())|
      requires Admits(Queue(Data())[i], floor, loads, status)
      modifies this`onboard, this`status, this`loads, this`numWaiting, this`log, waitingList, waitingOnFloor
      ensures Valid() && Data() == LetIn(old(Data()), i)
    {
      ghost var e := Data();
      var p := waitingList[floor - 1][i];
      waitingList[floor - 1] := Without(waitingList[floor - 1], i);
      onboard := onboard + [p];
      if p.kind == 1 {
        status := 1;
      }
      loads := loads + 1;
      waitingOnFloor[p.start - 1] := waitingOnFloor[p.start - 1] - 1;
      numWaiting := numWaiting - 1;
      log := log.(boarded := log.boarded + [p], tickets := log.tickets + [Stamp(log)]);
      assert Data().waiting == LetIn(e, i).waiting && Data().onFloor == LetIn(e, i).onFloor;
    }

    method LoadPassengers() returns (loaded: bool)
      requires Valid()
      modifies this`onboard, this`status, this`loads, this`numWaiting, this`log, waitingList, waitingOnFloor
      ensures Valid() && Data() == Load(old(Data()))
      ensures loaded <==> Incoming(old(Data())) != []
    {
      hide LoadFrom, Load, LetIn, Someone, Incoming;
      ghost var e := Data();
      var floor, i := currentFloor, 0;
      loaded := false;
      log := log.(cleanFrom := CleanFrom(e));
      LoadBegins(e);
      assert Data() == Mark(e);
      while i < |waitingList[floor - 1]|
        invariant Valid() && floor == currentFloor && i <= |Queue(Data())|
        invariant LoadFrom(Data(), i) == Load(e)
        invariant loaded || Someone(Data(), i) <==> Incoming(e) != []
        decreases |waitingList[floor - 1]| - i
      {
        var p := waitingList[floor - 1][i];
        LoadStep(Data(), i);
        LetInFrame(Data(), i);
        if p.start == floor && loads + 1 <= CAPACITY && (p.kind == 1 || (p.kind == 0 && status == 0)) {
          BoardAt(floor, i);
          loaded := true;
        } else {
          i := i + 1;
        }
      }
      LoadDone(Data());
    }

    method ChangeElevatorState()
      requires Valid()
      modifies this`state
      ensures Valid() && Data() == Turn(old(Data()))
    {
      if nextFloor > currentFloor {
        state := Up;
      } else {
        state := Down;
      }
    }

    method MoveElevator()
      requires Valid()
      requires state == Up ==> currentFloor < FLOORS
      requires state == Down ==> currentFloor > 1
      modifies this`currentFloor, this`nextFloor, this`log
      ensures Valid() && Data() == Move(old(Data()))
      ensures old(state) == Up ==>
                currentFloor == old(currentFloor) + 1 && nextFloor == if currentFloor == 10 then 9 else currentFloor + 1
      ensures old(state) == Down ==>
                currentFloor == old(currentFloor) - 1 && nextFloor == if currentFloor == 1 then 2 else currentFloor - 1
      ensures old(state) != Up && old(state) != Down ==> Data() == old(Data())
    {
      if state == Up {
        currentFloor := currentFloor + 1;
        nextFloor := if currentFloor == FLOORS then currentFloor - 1 else currentFloor + 1;
        log := log.(moves := log.moves + 1);
      }
      if state == Down {
        currentFloor := currentFloor - 1;
        nextFloor := if currentFloor == 1 then currentFloor + 1 else currentFloor - 1;
        log := log.(moves := log.moves + 1);
      }
    }

    /** Lines 376-387. */
    method ServeFloor()
      requires Valid()
      modifies this`onboard, this`status, this`loads, this`serviced, this`numWaiting, this`state, this`log
      modifies waitingList, waitingOnFloor
      ensures Valid() && Data() == Serve(old(Data()))
    {
      var unloadSleep := UnloadPassengers();
      var loadSleep := false;
      if loads < CAPACITY {
        loadSleep := LoadPassengers();
      }
      if unloadSleep || loadSleep {
        state := Motion.Loading;
      }
    }

    /** Lines 389-399. */
    static lemma TurnHeads(e: Elevator)
      ensures Turn(e).motion == Heading(e) && Turn(e).floor == e.floor
    {
    }

    method DepartFloor()
      requires Valid()
      modifies this
      ensures Valid() && All() == Depart(old(All()))
    {
      hide Move, Turn;
      ghost var e := Data();
      if loads != 0 || numWaiting != 0 {
        ChangeElevatorState();
        TurnHeads(e);
        MoveElevator();
      } else if deactiving {
        state := Offline;
        deactiving := false;
      }
      log := log.(rounds := log.rounds + 1);
    }

    /** The body of the scheduler's loop. */
    method SchedulerRound()
      requires Valid()
      modifies this, waitingList, waitingOnFloor
      ensures Valid() && All() == Round(old(All()))
    {
      if numWaiting != 0 || onboard != [] {
        ServeFloor();
        DepartFloor();
      } else {
        state := if started then Idle else Offline;
        log := log.(rounds := log.rounds + 1);
      }
    }

    /** The scheduler thread until `kthread_should_stop`, here after `rounds` iterations. With an honest
        `loads` and enough of them the building ends up empty, and with everybody delivered. */
    method Scheduler(rounds: nat)
      requires Valid()
      modifies this, waitingList, waitingOnFloor
      ensures Valid() && All() == Rounds(old(All()), rounds)
      ensures old(AtTop(Data()) && loads == |onboard|) && rounds >= 18 * (2 * old(numWaiting) + old(loads)) ==>
                Quiet(Data()) && serviced == old(serviced + numWaiting + loads)
    {
      ghost var x := All();
      for k := 0 to rounds
        invariant Valid() && All() == Rounds(x, k)
      {
        SchedulerRound();
        Compose(Round, x, k, 1);
        assert Iterate(Round, Rounds(x, k), 1) == Iterate(Round, Round(Rounds(x, k)), 0);
      }
      if AtTop(x.e) && x.e.loads == |x.e.onboard| && rounds >= 18 * (2 * x.e.numWaiting + x.e.loads) {
        DrainsInTime(x, rounds);
      }
    }

    // ---------- teardown ----------

    /** Moves all of one waiting list to the end of a delete list. */
    method MoveAll(f: nat, list: seq<Passenger>) returns (deleteList: seq<Passenger>)
      requires Valid() && f < FLOORS
      modifies waitingList
      ensures deleteList == list + old(waitingList[f])
      ensures waitingList[..] == old(waitingList[..])[f := []]
    {
      ghost var q := waitingList[f];
      deleteList := list;
      while waitingList[f] != []
        invariant deleteList + waitingList[f] == list + q
        invariant forall j :: 0 <= j < FLOORS && j != f ==> waitingList[j] == old(waitingList[j])
        decreases |waitingList[f]|
      {
        deleteList := deleteList + [waitingList[f][0]];
        waitingList[f] := waitingList[f][1..];
      }
    }

    /** `e` with the first `i` waiting lists and the onboard list moved away. */
    static ghost predicate Moved(e: Elevator, e': Elevator, i: nat, list: seq<Passenger>)
      requires i <= FLOORS
    {
      && e' == e.(onboard := [], waiting := e'.waiting) && list == e.onboard + Flat(e.waiting[..i])
      && forall j :: 0 <= j < FLOORS ==> e'.waiting[j] == if j < i then [] else e.waiting[j]
    }

    static lemma MovesOne(e: Elevator, i: nat, list: seq<Passenger>)
      requires i < FLOORS && list == e.onboard + Flat(e.waiting[..i])
      ensures list + e.waiting[i] == e.onboard + Flat(e.waiting[..i + 1])
    {
      FlatAppend(e.waiting[..i], e.waiting[i]);
      assert e.waiting[..i + 1] == e.waiting[..i] + [e.waiting[i]];
    }

    static lemma MovedAll(e: Elevator, e': Elevator, list: seq<Passenger>)
      requires Moved(e, e', FLOORS, list)
      ensures Free(e', list) == RemoveAll(e)
    {
      assert e.waiting[..FLOORS] == e.waiting;
      assert e'.waiting == seq(FLOORS, _ => []);
    }

    method RemoveAllPassengers()
      requires Valid()
      modifies this, waitingList
      ensures Valid() && Data() == RemoveAll(old(Data()))
    {
      ghost var e := Data();
      var deleteList := TakeRiders();
      assert Flat(e.waiting[..0]) == [];
      for i := 0 to FLOORS
        invariant Valid() && Moved(e, Data(), i, deleteList)
      {
        hide Flat;
        MovesOne(e, i, deleteList);
        deleteList := MoveAll(i, deleteList);
      }
      MovedAll(e, Data(), deleteList);
      FreeNodes(deleteList);
    }
  }
}
