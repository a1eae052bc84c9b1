# The kernel elevator and the proc timer, verified

A Dafny model of two Linux kernel modules.

* `part3/elevator.c`: a ten-floor elevator for humans and zombies. One kernel thread (`scheduler`)
  unloads, loads and moves in a loop, while the system calls `start_elevator`, `issue_request` and
  `stop_elevator` change the same lists, counters and flags.
* `timer/my_timer.c`: a proc file whose reads report the time, and the time elapsed since the last
  read that was answered.

`dafny verify dfyconfig.toml` checks everything.

## How it is organised

| file | what is in it |
|---|---|
| `Passengers.dfy`, `Cabin.dfy` | passengers with identity; the globals of the elevator as a value, and each critical section as a function on it; a history (who was accepted, boarded, delivered, discarded, freed, and when) that the program never reads |
| `Critical.dfy`, `Sweep.dfy`, `Bookkeeping.dfy` | what unloading and loading do, stated apart from how; the path of the cabin; the bookkeeping every section keeps |
| `ElevatorModule.dfy` | the C functions as methods of a class over mutable fields and arrays, with the loops of the source, each proved equal to its function |
| `AtomicMachine.dfy`, `Runs.dfy` | the scheduler and any number of system calls, interleaved; the invariant of all runs |
| `Histories.dfy`, `Delivery.dfy`, `Display.dfy` | conservation, capacity, infection, overtaking, memory, bounded delivery, and the state shown, over all runs |
| `Waiting.dfy`, `Filling.dfy` | whom a visit of the cabin picks up, and that waits have no bound; runs in which the cabin fills up |
| `Iteration.dfy`, `Drain.dfy`, `Undisturbed.dfy` | termination: how soon the scheduler serves everybody once the calls cease, wherever it is then |
| `SystemCalls.dfy`, `CallResults.dfy` | runs in which no call is interrupted; what each call returns and does in any state, with the mutex too; the order of the flag writes |
| `Shutdown.dfy`, `Clearing.dfy`, `Stopping.dfy` | what a stop leads to, at any point of an iteration, interrupted or not |
| `LateRequests.dfy` | requests that overlap a stop: exactly when they can still queue a passenger |
| `LockMachine.dfy`, `Refinement.dfy`, `LockRuns.dfy` | the same threads with the mutex explicit and every list operation and counter update a step of its own; the proof that this refines `AtomicMachine` |
| `Realisation.dfy`, `LockLiveness.dfy` | the converse for threads that are left alone until they are through; draining in the program with its mutex |
| `LockStops.dfy` | what a stop leads to in the program with its mutex, in every interleaving with the scheduler |
| `LockRequests.dfy`, `LateUnderLock.dfy` | late requests in the program with its mutex: runs that show them, and exactly when one can still follow, wherever every thread is |
| `TimeText.dfy`, `MyTimer.dfy`, `Readings.dfy` | times as text; borrow subtraction; `procfile_read` over its buffers; what the texts of a run of reads tell their reader |

## What the code does that one might not expect

* `stop_elevator` empties the cabin and leaves `loads` alone. The true invariant is
  `loads == |onboard| + |discarded|`: each discarded rider costs a place for good, an infection never
  clears after that, and the building drains if and only if `loads` is still the number of riders
  (`EveryRunDrainsExactlyWhen`, `LeakIsForever`, `StopLeaksExactlyWhenRidden`, `LeakHappens`).
* A stop does not always lead to `deactiving == 0` again. It sets its flags without the lock (lines
  191-192) and then waits for it (line 193), and the scheduler may go on in between; what counts is the
  state in which it gets the lock. If no call follows, `deactiving` is cleared if and only if the lock was
  taken with `loads` zero and, in addition, either with somebody waiting or with the scheduler past the
  test at the head of its loop, where line 395 is still to come (`StopCompletesExactlyWhen`,
  `LockedStopCompletesExactlyWhen`). The state in which the stop is called says this only of a stop that
  nothing interrupts (`WholeStopCompletesExactlyWhen`): otherwise the scheduler may pick up the person who
  waited before the stop has the lock, and then the stop discards that person and hangs
  (`OvertakenStopHangs`). As the repository's README says, people are picked up after a stop: if the lock
  was taken with `loads` zero, everybody who waits then is served (`StopAnywhere`, `LockedStopAnywhere`).
* `issue_request` tests `started` without the lock, so a passenger can be queued after a stop was called
  and has returned 0, once the scheduler has cleared `deactiving` (`LateRequestHappens`). With the mutex
  free this can still happen if and only if a request waits for the mutex and the flag is clear or the
  scheduler will clear it (`LateRequestsUnderLock`). With the mutex held it depends on who holds it and
  how far they are (`LateRequestsAnywhere`).
* `deactiving` is written without the lock, so the section of `issue_request` is not atomic: a stop may
  set it while a request holds the mutex, after its test and before the insertion, and then the passenger
  is queued although the flag is set (`TestGoesStale`; the stop itself cannot return before, since it
  needs the mutex). `AtomicMachine` therefore takes the test and the insertion as two steps, and the
  refinement is to these two steps. A machine with one step for both would rule such runs out.
* A request made while a stop is under way returns 0 and queues nobody: a stop sets `deactiving` before it
  clears `started` (`BetweenFlagWrites`). What each call returns and does in any state is in
  `EveryCallReturns`.
* Rides are bounded and waits are not: a zombie per period, from the ground floor back to it, keeps the
  cabin infected on every visit, and a human upstairs waits for as many periods as one likes, with nobody
  discarded and everybody else picked up (`WaitsAreUnbounded`). Whom a visit does pick up is exact
  (`VisitServes`).
* In the timer a snapshot on a full second counts as no snapshot. If the clock does not run backward from
  there, the elapsed times add up if and only if whenever an answered read but the last is on a full
  second, the next one finds the clock still at the same value (`TelescopesExactlyWhen`). If none of them
  is on a full second they add up whatever the clock does (`TelescopesWithAnyClock`). All this is said of
  the times as a reader finds them in the texts handed over. The nanoseconds are not padded: `5.7` is five
  seconds and seven nanoseconds, and no other text means that (`RenderExactly`).

## Model

| member | source | states |
|---|---|---|
| ElevatorModule.Driver.constructor | part3/elevator.c:539-556 | setup yields the empty building with the cabin offline on floor 1 and heading up, `num_waiting` and `status` included |
| ElevatorModule.Driver.StartElevator | part3/elevator.c:94-105 | result and new state of an uninterrupted start, lists untouched |
| ElevatorModule.Driver.IssueRequest | part3/elevator.c:108-149 | every rejected argument returns 1 and changes nothing; otherwise the new node is last on the list of its start floor and both counters agree; while deactivating it returns 0 and queues nobody |
| ElevatorModule.Driver.StopElevator | part3/elevator.c:174-210 | a refused stop changes nothing; otherwise everybody on board is discarded and freed, the flags are set, and `loads`, `serviced` and `status` are as before |
| ElevatorModule.Driver.AlightAll | part3/elevator.c:228-243 | the traversal in place takes off exactly the riders for this floor, in order, into the delete list |
| ElevatorModule.Driver.UnloadPassengers | part3/elevator.c:213-258 | traversal, freeing and reset of the status together; the result says whether anybody got off |
| ElevatorModule.Driver.LoadPassengers | part3/elevator.c:261-309 | the traversal in place equals the first-fit fold over the floor's queue in lists, counters and status; the result says whether anybody boarded |
| ElevatorModule.Driver.MoveElevator | part3/elevator.c:339-360 | going up or down the new floor and the next one, turning at either end; in any other state nothing |
| ElevatorModule.Driver.SchedulerRound | part3/elevator.c:369-410 | the loop body as one function of lists, counters and flags |
| ElevatorModule.Driver.Scheduler | part3/elevator.c:363-413 | any number of iterations, and an empty building with everybody delivered after enough of them |
| ElevatorModule.Driver.RemoveAllPassengers | part3/elevator.c:593-625 | all eleven lists are emptied and every node on them freed |
| Critical.UnloadSplits | part3/elevator.c:230-241 | unloading splits the cabin by destination and loses nobody |
| Critical.BoardSplits | part3/elevator.c:273-302 | who boards and who stays make up the old queue; `loads` counts the former and never passes 10 |
| Critical.BoardOrder | part3/elevator.c:273-302 | both halves keep the arrival order |
| Critical.BoardFirstFit | part3/elevator.c:273-302 | those who board are exactly the first eligible ones up to `10 - loads`, eligible being every zombie and the humans ahead of the first zombie |
| Critical.BoardMaximal | part3/elevator.c:273-302 | nobody left behind could still board: the cabin is full, or they are human and it is infected |
| Critical.BoardFair | part3/elevator.c:273-302 | one traversal never lets anybody pass a zombie, nor a human pass anybody |
| Critical.BoardInfection | part3/elevator.c:281-299 | infected afterwards exactly if infected before or a zombie boarded; no human boards after a zombie |
| Bookkeeping.FullCabinLoadsNobody | part3/elevator.c:377-380 | the scheduler's test for room is redundant |
| Sweep.MoveKeepsSweep | part3/elevator.c:330-360 | each move lands on the announced floor and the direction changes only at floors 1 and 10 |
| Runs.Always | part3/elevator.c:94-410 | every interleaving of the scheduler and any number of calls keeps the whole invariant: ledger, fairness, quarantine, sweep, ownership of nodes, and a status that is stale only between unloading and its reset |
| Display.DisplayIsHonest | part3/elevator.c:382-409 | in every run idle or offline is shown only with nobody on board, but for the instant between boarding and the pause of line 382; loading whenever the doors were held; up or down as the cabin is about to move (between lines 391 and 393) or else as it last moved |
| Display.DoorsOpenExactlyWhen | part3/elevator.c:376-386 | in every iteration of every run, whatever calls come in between: `unload_sleep` and `load_sleep` say whether anybody got off or on in this iteration, LOADING is shown from the pause until the cabin is about to move if and only if anybody did, and otherwise the state stays what it was at the head of the loop |
| Display.IterationEndShows | part3/elevator.c:382-410 | what is shown when an iteration ends: the direction of the move if the cabin moved; OFFLINE after lines 397-398; with nothing to do IDLE or OFFLINE as `started` is set or clear; LOADING if it served the last passengers |
| Histories.ClosedForm | part3/elevator.c:330-360 | in every run the position depends only on the number of moves, by a closed form of period 18 |
| Histories.Conservation | part3/elevator.c:134-142 | in every run each accepted passenger is in exactly one place, exactly once, and `num_waiting + loads + serviced` is the number accepted |
| Histories.NeverBackward | part3/elevator.c:233-299 | from waiting to riding to delivered or discarded, never back, over every extension of every run |
| Histories.CountersAgree | part3/elevator.c:141-142 | the cached counters equal the lengths of the lists in every run |
| Histories.QueuesWellFormed | part3/elevator.c:116-142 | whoever is on a list starts on its floor and passed the argument checks, so the index and test in loading never fail |
| Histories.CapacityLeaks | part3/elevator.c:193-201 | `loads` is riders plus discarded, never above 10, and in any later state at most 10 less the discarded ride |
| Histories.LeakIsForever | part3/elevator.c:253-256 | once somebody was discarded an infection never clears and waiting humans wait for ever; after ten, everybody does |
| Histories.InfectionSafety | part3/elevator.c:281-299 | an uninfected cabin holds humans only; at the top of the loop the status is exact; a human boards after a zombie only if the cabin was empty in between |
| Histories.NoOvertaking | part3/elevator.c:139-139 | over whole runs and repeated visits: a zombie is never passed by later arrivals, a human never by a later human |
| Histories.RidersInOrder | part3/elevator.c:284-294 | in every run the onboard list is in the order of boarding |
| Histories.FreedAtMostOnce | part3/elevator.c:202-207 | no double free, no node freed while a list or thread can reach it, none lost |
| Histories.TeardownFreesAll | part3/elevator.c:628-641 | unloading the module with no call in progress frees every node exactly once and leaves the counters as they were |
| Delivery.DeliveredWithinOnePeriod | part3/elevator.c:389-394 | under any arrivals and stops nobody rides for more than 18 moves, 17 if start and destination differ, and the cabin moves in every iteration meanwhile |
| Delivery.GetsOffAtFirstVisit | part3/elevator.c:230-241 | in every run: whoever is on board when the scheduler unloads has ridden for one move at least and has not been at their destination since they boarded, and gets off now if and only if this is their destination |
| Delivery.GoneAfterOnePeriod | part3/elevator.c:230-241 | whoever boarded more than 18 iterations ago was delivered, or discarded by a stop |
| Waiting.VisitServes | part3/elevator.c:273-302 | whenever the scheduler gets to load, in any run: the k-th human in the queue boards if and only if the cabin is clean, only humans are ahead and there is room after them; a zombie if and only if there is room after the eligible ones ahead |
| Waiting.VisitLeavesOnlyBarred | part3/elevator.c:369-380 | in every iteration of every run, whatever calls come in between: once the scheduler has loaded, whoever waited on this floor at the head of the loop has boarded, unless `loads` is 10, or the cabin is infected and they are human; and if anybody waited anywhere the iteration is not spent resting |
| Waiting.WaitsAreUnbounded | part3/elevator.c:281-295 | for every m a run lets a human wait for m periods of the sweep in a running elevator, with nobody discarded, while all m who came later have boarded |
| Filling.CabinFills | part3/elevator.c:279-298 | for every k a run in which k humans wait for the first visit, ten of them then ride, and all if they are fewer |
| Drain.ProgressInOnePeriod | part3/elevator.c:369-394 | within 18 iterations somebody boards or leaves, unless nobody can |
| Drain.SettlesInTime | part3/elevator.c:363-400 | whatever was discarded before, after 18 iterations per unit of work the cabin is empty, and whoever still waits finds `loads` at 10, or is human and finds the cabin infected with `loads` above zero |
| Drain.DrainsInTime | part3/elevator.c:363-400 | with an honest `loads`, within `18 * (2 * num_waiting + loads)` iterations all lists and counters are zero, the cabin is clean, and `serviced` has grown by everybody |
| Drain.DrainsExactlyWhenHonest | part3/elevator.c:191-200 | the building ever drains if and only if `loads` is the number of riders |
| Undisturbed.ReachesRound | part3/elevator.c:369-410 | the scheduler thread stepped alone does exactly one iteration of the loop function |
| Undisturbed.ReachesTop | part3/elevator.c:365-411 | from any point of any iteration the scheduler alone gets to the top of its loop, ending one round at most, with nobody accepted, discarded or added to the work |
| Undisturbed.EveryRunDrains | part3/elevator.c:363-400 | after any interleaved run, wherever the scheduler is, provided `loads` is the number of riders: once the calls cease everybody is delivered within 18 iterations per boarding and ride due, and the one under way |
| Undisturbed.EveryRunDrainsExactlyWhen | part3/elevator.c:191-200 | after any run, the scheduler alone ever empties the building if and only if `loads` is the number of riders |
| Shutdown.GracefulStop | part3/elevator.c:183-192 | a stop that finds the cabin empty and people waiting: all served within 36 iterations each, then offline with both flags clear |
| Shutdown.CompletesBetweenRounds | part3/elevator.c:395-399 | for a stop between two iterations only: `deactiving` is ever cleared if and only if `loads` was zero and somebody waited |
| Clearing.ClearsExactlyWhen | part3/elevator.c:389-399 | the scheduler, left alone anywhere, clears `deactiving` if and only if nobody was discarded and somebody is to be served or it is past the test at the head of its loop |
| SystemCalls.WholeIsUninterrupted | part3/elevator.c:94-210 | a call that nothing interrupts has exactly its one-step effect and result |
| SystemCalls.CoarseIsRun | part3/elevator.c:94-210 | runs of uninterrupted calls are runs, so all run theorems apply to them |
| SystemCalls.IssueReturnsZeroExactlyWhenQueued | part3/elevator.c:112-148 | with uninterrupted calls a request returns 0 exactly when the elevator runs and the type is 0 or 1 and both floors are 1 to 10, and exactly when its passenger is queued, last on its floor's list and nowhere else |
| CallResults.EveryWholeCallReturns | part3/elevator.c:94-210 | with uninterrupted calls a start returns 0 exactly when the elevator is stopped, a request exactly when it runs and the arguments are in range, a stop exactly when it runs; what each then changes, and that it changes nothing when it returns 1 |
| CallResults.EveryCallReturns | part3/elevator.c:94-210 | with the mutex, in every state of every run in which it is free and `deactiving` set or clear: a caller that is left alone returns, and when it first does its result and the new lists, counters and flags are as the source says, and the mutex is free |
| CallResults.BetweenFlagWrites | part3/elevator.c:101-192 | a good request between the two writes of a stop or a start returns 0, and queues nobody if `deactiving` is set; after both writes of a stop it returns 1 |
| CallResults.NothingBeforeStart | part3/elevator.c:539-556 | until the first start, in every interleaving, every call but a start returns 1 at once, nobody is accepted, and OFFLINE is shown |
| SystemCalls.ListsShrinkAfterStop | part3/elevator.c:183-192 | with uninterrupted calls the waiting lists only shrink between a stop and the next start |
| Stopping.StopBetweenRounds | part3/elevator.c:174-210 | the graceful stop for the state after any run, the stop being called between two iterations and not interrupted |
| Stopping.StopCompletesExactlyWhen | part3/elevator.c:191-201 | after any run a stop takes its section, its flags long set or just set, and no call follows: at any time from then on, whether or not the stop has returned, the scheduler will clear `deactiving` if and only if the section was taken with `loads` zero and either somebody waiting or the scheduler inside the body of its loop |
| Stopping.WholeStopCompletesExactlyWhen | part3/elevator.c:174-210 | for a stop that nothing interrupts the same condition, read off the state in which it is called |
| Stopping.StopAnywhere | part3/elevator.c:191-201 | after any run a stop takes its section with `loads` zero, and no call follows: at any time from then on the scheduler alone serves whoever waited at the section, within 36 iterations each, and two more show the elevator at rest, with `deactiving` as just said |
| Stopping.WholeStopAnywhere | part3/elevator.c:174-210 | for a stop that nothing interrupts the same of whoever waited when it was called |
| LateRequests.LateRequestsExactly | part3/elevator.c:112-143 | in any reachable state of a stopped elevator, `deactiving` set or clear: a passenger can still be queued without a start if and only if a request is past its test of `deactiving`, or past its test of `started` while the flag is clear or can be cleared |
| Stopping.StopLeaksExactlyWhenRidden | part3/elevator.c:193-201 | after any run the section of a stop keeps `loads` honest if and only if nobody is on board; otherwise `loads` stays too high in every state of every continuation |
| Stopping.LeakHappens | part3/elevator.c:196-199 | a run that ends with an empty cabin and `loads` at 1 |
| Refinement.UnloadMicroFinishes | part3/elevator.c:230-241 | each single write of the unloading traversal leaves the outcome of the section as it was |
| Refinement.LoadMicroFinishes | part3/elevator.c:273-302 | the same for the loading traversal |
| Refinement.StepSimulates | part3/elevator.c:129-399 | every small step of any thread keeps mutual exclusion and is one large step or none |
| LockRuns.LocksRefineSections | part3/elevator.c:129-399 | every interleaving of small steps is matched state for state by large steps |
| LockRuns.MutualExclusion | part3/elevator.c:129-129 | at most one thread is inside a section, and it holds the mutex |
| LockRuns.CountersUpToHolder | part3/elevator.c:134-142 | the waiting counters and lists agree up to what the holder of the mutex has still to do, and exactly when it is free |
| LockRuns.LoadsUpToHolder | part3/elevator.c:196-298 | the same for `loads` against riders and discarded and for `serviced` against delivered, in the middle of unloading, loading and a stop |
| LockRuns.FreeStatesAreAtomic | part3/elevator.c:145-145 | with the mutex free the state is one that the large steps reach |
| Realisation.SectionEnds | part3/elevator.c:228-305 | from any point of a section the scheduler gets through and unlocks, with the outcome the refinement predicts |
| Realisation.SchedRealised | part3/elevator.c:363-413 | every large step of the scheduler is what it does with the mutex, left alone |
| Realisation.WholeRealised | part3/elevator.c:94-210 | a whole call has exactly its one-step effect and result with the mutex taken and released |
| Realisation.CoarseRunsRealised | part3/elevator.c:94-413 | every run of scheduler steps and whole calls is one the program can make with its mutex |
| LockLiveness.LockedRunsDrain | part3/elevator.c:363-400 | the draining theorem for the program with its mutex, wherever a run left the scheduler, between any two writes of unloading or loading too, unless a caller holds the mutex: everybody ever accepted is delivered in time |
| LockLiveness.LockedRunsDrainExactlyWhen | part3/elevator.c:228-305 | in all those states the scheduler alone ever empties the building if and only if `loads` is the number of riders, up to the node in hand |
| LockLiveness.HeldRunsDrainExactlyWhen | part3/elevator.c:129-201 | while a caller holds the mutex the scheduler has to wait: let the holder go on until it gives the mutex back, and the building drains if and only if nobody was discarded and the holder is not a stop with somebody still to take off |
| LockStops.LockedStopCompletesExactlyWhen | part3/elevator.c:191-201 | a stop has set its flags, the scheduler may have gone on, and now the stop takes the mutex: in every interleaving of its remaining steps with the scheduler's, `deactiving` can be cleared if and only if the mutex was taken with `loads` zero and either somebody waiting or the scheduler inside the body of its loop |
| LockStops.LockedStopAnywhere | part3/elevator.c:193-201 | a stop that takes the mutex with `loads` zero: whenever it has given it back, the scheduler alone serves whoever waited when it was taken, and shows the elevator at rest |
| LockStops.OvertakenStopHangs | part3/elevator.c:191-199 | a run with the mutex: a stop is called with `loads` zero and somebody waiting, the scheduler picks that person up before the stop gets the mutex, and the stop discards them, returns 0 and leaves `deactiving` set for good |
| LockRequests.LateOnlyIf | part3/elevator.c:112-143 | in every state with the mutex, free or held, a late passenger takes a request past one of its tests as LateRequestsExactly says |
| LockRequests.LateRequestsUnderLock | part3/elevator.c:112-143 | with the mutex free and the elevator stopped: a passenger can still be queued without a start if and only if a request waits for the mutex and `deactiving` is clear or will be cleared |
| LateUnderLock.LateRequestsAnywhere | part3/elevator.c:112-145 | in every reachable state with the mutex, free or held, of a stopped elevator: a passenger can still be queued without a start if and only if a request is past its test of `deactiving`; or is at it, and the flag is clear or the scheduler clears it before it needs the mutex; or waits for the mutex, the flag is clear or can be cleared, and no stop is still taking riders off |
| LockRequests.LateRequestHappens | part3/elevator.c:112-143 | a run with the mutex: a request passes line 112, a stop is called and returns 0, the scheduler clears `deactiving`, and the passenger is queued |
| LockRequests.TestGoesStale | part3/elevator.c:129-145 | a run with the mutex: while a request holds it, past its test, a stop sets `deactiving` and waits, and the passenger is queued |
| TimeText.RenderReadsBack | timer/my_timer.c:32-32 | splitting `sec.nsec` at the dot recovers both numbers, whatever their signs, each written without zeros in front |
| TimeText.RenderExactly | timer/my_timer.c:32-32 | no other text means that time |
| TimeText.FitsExactly | timer/my_timer.c:31-32 | every time of a second fits the 21 bytes if and only if the second has at most ten digits |
| MyTimer.SubExact | timer/my_timer.c:36-46 | the borrow subtraction is exact, and gives the only normalised difference |
| MyTimer.ReportFits | timer/my_timer.c:49-56 | with a clock in range that does not run backward the report has at most 70 characters and its length fits the `char` |
| MyTimer.Module.Read | timer/my_timer.c:23-90 | `procfile_read` over its buffers: report, early returns, failed copy, and what is committed |
| MyTimer.Module.BothLines | timer/my_timer.c:30-55 | both lines put together in place within the declared buffers |
| Readings.AnswerExactly | timer/my_timer.c:57-89 | a read at the start of the file with room for the report, whose copy succeeds, returns the length of its text, which is also the new position, and commits the time; the text tells the clock under its label and, with an earlier time, exactly the time since then under its own; any other read hands over nothing, moves nothing, and returns 0 or -14 as line 57 or 59 says |
| Readings.EveryReadFits | timer/my_timer.c:27-89 | in every run of reads with a clock in range that does not run backward, answered or not, no buffer is overrun and every read is answered so |
| Readings.RejectedReadsLeaveNoTrace | timer/my_timer.c:57-62 | the current times that the texts tell are the clock at the answered reads, and the elapsed times the gaps between them; rejected reads change none of them |
| Readings.Telescoping | timer/my_timer.c:27-62 | over any run the elapsed times told sum to the last current time told minus the first, less what follows a read on a full second |
| Readings.TelescopesExactlyWhen | timer/my_timer.c:27-27 | with a clock that does not run backward after a full second the sum is exact if and only if whenever an answered read but the last is on a full second, the next one finds the clock still there |
| Readings.TelescopesWithAnyClock | timer/my_timer.c:27-62 | whatever the clock does, the sum is exact if no answered read but the last is on a full second |
| Readings.FullSecondIsMissed | timer/my_timer.c:27-27 | two answered reads of which the second tells no elapsed time |
| Readings.ReportedNormalised | timer/my_timer.c:36-46 | every nanosecond part told is in range |

## Left out

- The proc files of the elevator (open, read, release), the debug printers, `printk`, and module registration: they only show the state.
- Interruption of `mutex_lock_interruptible`: the model takes it to return 0. If interrupted, the code unlocks a mutex it does not hold.
- Failure of `kmalloc`, memory layout, and the kernel's list nodes: a list is a sequence of nodes with identity, and a node's address is the number of its allocation.
- `ssleep`, thread creation and `kthread_should_stop`: scheduling choices. A run may stop anywhere.
- The scheduler's own variables (`loads`, `status`, `current_floor`, `next_floor`, `state`) are read or written together with at most one variable that some other thread uses, because no other modelled thread touches them.
- Memory ordering weaker than interleaving, and torn reads.
- Fairness: the delivery and draining theorems count iterations of the scheduler, and do not say that it gets to run or to have the mutex.
- Overflow of `num_waiting`, `waiting_on_floor` and `serviced`: they are unbounded here. `loads` never passes 10.
- ElevatorModule.Driver: runs each function without interruption. What interleaving adds is the subject of AtomicMachine and LockMachine.
- ElevatorModule.Driver.LoadPassengers: the body of the loop moves a zombie and a human by the same helper; the single writes are in LockMachine.
- Histories.TeardownFreesAll: takes no call to be in progress; the code does not check this, and a request past its tests may still queue a node after the teardown.
- MyTimer.Module.Read: takes both times to fit their 21 bytes, which is what the code relies on; `Readings.EveryReadFits` says when they do.
- `procfile_write`, the system call stubs, the user programs, all of `part1`, and the Makefiles: nothing hard to prove.
