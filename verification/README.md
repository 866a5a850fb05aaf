# FlashFlow coordinator, verified model

FlashFlow's coordinator connects to many Tor clients, takes each through a handshake (authenticate, connect to the
target relay, set a bandwidth, measure), runs measurements in dependency order, and folds the per-second results into
a bandwidth file. This project models its four parts in Dafny and proves what they are for.

* **Protocol and runs** (`Protocol`, `Runs`, `History`, `Progress`, `Liveness`): a world is the client array with the
  scheduler's table; an event is one thing the coordinator does (start, find nothing ready, connect, send a message,
  good reply, result lines, reset a deadline, finish, fail). A run is any sequence of events each enabled where it
  happens, and an event that stops the program by a panic or an assertion is not enabled: every run is one the program
  survives. What is said of every run holds of every outcome of every socket, reply, descriptor and clock.
* **What some run does** (`Looping`, `Starting`, `Crews`, `Outlasting`, `Handshakes`, `Assembly`, `Succeeding`,
  `Aborts`): `Looping.Looped` is a run in the order of the main loop. Each iteration consults the scheduler once, and
  has to start something if anything is ready; it brings up what it started, makes the passes that are due, then reads
  replies, and it is over before the replies only when everything that runs awaits one or something has failed.
  Wherever some run is said to exist, or none is, these are the runs that are meant.
* **Coordinator** (`Coordination`, with `Clients`, `Staffing`, `Passes`, `Polling`, `Heads`, `Bookkeeping`, `Rounds`,
  `Silence`): the class has the program's own state, an array of client records, an array of known ids edited by
  swap-remove, the scheduler's table and the counters, and its methods are the program's loops. A ghost log records
  the events; every method is proved to extend it by events that are enabled and in the order of the main loop
  (`Coordinator.Traced`), so what is proved of runs holds of the class. The program's assertions are Dafny assertions
  or preconditions that every caller meets, an index into the known ids is an array index, and the unknown-descriptor
  return and the in-no-list branch are `assert`ed away.
* **Scheduler and schedule text** (`Schedule`, `Text`, `ScheduleText`, `Generator`, `Startup`): readiness, loading,
  the line parser, the generator of lines, and how they fit together.
* **Bandwidth file** (`Records`, `Bandwidth`): result lines, the per-second accumulator, the table of relays, the
  median and the published value.
* **The whole** (`Program`): one call of `main_loop_once`, from the lines of a schedule and a client list to the
  counts and the bandwidth file, on whatever table earlier calls have left.

What the environment does is chosen arbitrarily: whether a socket, a send or a reply works (`Clients`), which
descriptors `epoll_wait` reports (`Polling.EpollWait`), the order in which hash maps yield their entries, and how far
the clock moves (`Coordinator.Tick`, `Coordinator.NextHead`). Three facts are taken from it: a new descriptor differs
from every open one, only registered descriptors are reported and each at most once per wait, and the clock does not
go back.

Termination takes one more: a second of the clock does not hold infinitely many iterations. `Coordinator.NextHead`
lets the environment choose, for every second anew, how many iterations that report something fit into it, and
`Coordinator.Run` ends whatever it chooses. `Rounds.EndlessMeansStopped` says the same without a choice: in a run that
does not end the clock stops while some client is measuring. Such runs exist whenever a measurement can succeed on a
viable schedule (`Rounds.EndlessExists`): the client reports without end, while nothing is overdue and nothing is left
to start. `Rounds.BoundedIterations` gives a number of iterations when no second holds more than `k` that only read
result lines.

## Where the program needs help from its input

* A schedule is run to its end by some run exactly when it is viable: no set of measurements in which each repeats a
  depend, panics at its start, or depends on another member (`Starting.FinishableIffViable`). That is to have a
  topological order of what is pending, without repeated depends or panics (`Liveness.ViableIffOrdered`). Loading
  checks none of this (`Startup.CycleIsLoaded`, `Startup.RepeatIsLoaded`, `Startup.BadDurationCrashes`); on a schedule
  that is not viable the loop condition never becomes false (`Coordinator.NeverFinished`), which is why
  `Coordinator.Run` requires a viable one. The measurements of any schedule that some run starts are exactly those in
  no such set (`Starting.StartedIffCanStart`). A schedule generated from names without NULs is viable
  (`Startup.GeneratedViable`).
* Some run finishes a measurement successfully exactly when it can be started, has a duration and hosts, there are at
  least as many clients of each class as host entries, no class that begins with "bg" is given other than one
  connection, and it can be kept at work through four more iterations (`Succeeding.SucceedsIff`). The last matters
  only where another measurement panics at its start. Each of these iterations hands out something that is ready, if
  anything is, so either there are four others to hand out, which neither need the measurement nor are needed by it;
  or some can be kept running beside it, staffed from the same client list, such that whatever panics and does not
  need the measurement needs one of them (`Outlasting.Outlasts`, `Outlasting.Beside`). Without a panic that can be
  reached this always holds (`Succeeding.NoThreatOutlasts`); `Startup.DoomedGetsNowhere` is a schedule of two on which
  it does not.
* A measurement that is started fails at once without a duration or hosts, when too few unused clients of some class
  accept a connection, or when an authentication cannot be sent (`Coordinator.BringUp`). If no connection is refused,
  clients are too few exactly when some class has fewer unused ones than host entries: a measurement whose clients are
  busy is failed, not postponed (`Bookkeeping.ShortWhenBusy`).
* No run stops the program by a panic or an assertion exactly when its input is harmless (`Aborts.CrashesIffHarmful`,
  with `Aborts.Harmless`). A measurement that repeats no depend and whose depends can be started panics at its own
  start when three times its duration does not fit in 32 bits (the library is built in debug mode, where overflow
  panics) or when its relay or one of its classes has a NUL in its name (`Aborts.PanicReached`). A measurement that
  can be started, has a duration and can be staffed from the client list fails the assertion in `tc_tell_connect` when
  a class that begins with "bg" has other than one connection, if it can be kept at work through one more iteration:
  the client side tests the prefix, the parser the whole name (`Aborts.AssertReached`). The parser lets all three
  kinds through, and with them some run crashes (`Startup.BadDurationCrashes`, `Startup.BadNameCrashes`,
  `Startup.BadClassCrashes`). `Harmless` is all that the coordinator class asks of a loaded schedule; a schedule
  generated from names without NULs is harmless (`Startup.GeneratedHarmless`).
* In every run of a schedule generated from names without NULs, one set has ended when another starts exactly when no
  set between them is empty: an empty set erases the dependency text, and then some run starts what follows at once
  (`Startup.GeneratedInOrder`; `Startup.SetsInOrderIffNoGap` has the same with panics). For any schedule, one
  measurement has always ended when another starts exactly when the other needs it or is never started
  (`Starting.EndsFirstIffNeeded`).
* The table is never cleared between calls. Successes and failures add up to the measurements of the schedule just
  loaded, so to the total that is logged exactly when no earlier id lies outside that schedule
  (`Program.MainLoopOnce`, `History.FinishedRun`).
* The comment above `tc_next_available` (torclient.c:425-433) says the client is left authenticated; the code leaves
  it connected, and the model follows the code.

Proofs use `hide` statements only to keep definitions a proof does not need from the verifier.

## Model

| member | source | states |
|---|---|---|
| Schedule.ReadyMeansDependsDone | sched/src/lib.rs:320-332 | equal vector lengths mean exactly that no depend is repeated and every depend is complete |
| Schedule.CompletedTracked | sched/src/lib.rs:340-353 | marking done keeps every entry's finished depends duplicate-free and equal to its complete depends |
| Schedule.StartedTracked | sched/src/lib.rs:323-328 | starting a waiting measurement keeps the same |
| Schedule.Scheduler.NextInternal | sched/src/lib.rs:320-332 | for every map order: 0 exactly when nothing is ready, otherwise some ready measurement, started with its deadline when marking; an overflowing deadline is the one thing excluded |
| Schedule.Scheduler.MarkDone | sched/src/lib.rs:340-353 | the measurement becomes complete and its id is pushed once onto exactly the measurements that list it |
| Schedule.Scheduler.ResetFailsafe | sched/src/lib.rs:52-59 | the deadline becomes now plus 3 * dur / 2 and nothing else changes |
| Schedule.Scheduler.CheckAndInsert | sched/src/lib.rs:171-194 | accepts exactly distinct ids with known depends, and changes nothing otherwise |
| Schedule.InsertedIsAll | sched/src/lib.rs:183-193 | with distinct ids, loading stores exactly the given measurements under their ids and keeps what is under other ids |
| Schedule.FreshUnstarted | sched/src/lib.rs:183-193 | loaded over complete leftovers, new measurements wait, and depend on new ones only |
| Schedule.Scheduler.New | sched/src/lib.rs:155-169 | a load succeeds exactly when ids are distinct, depends known and some new measurement has no depends, whatever complete entries earlier schedules left |
| Schedule.FreshReady | sched/src/lib.rs:165-167 | after a load exactly the new measurements without depends are ready |
| Clients.ChangeState | torclient.c:18-127 | only the legal transitions may be asked for; the state of that client alone changes |
| Clients.LegalIff | torclient.c:18-127 | legal is one stage forward, failing at any stage from connected to done, and giving up what is done or failed |
| Clients.Next | torclient.c:20-113 | every step of the handshake from connected to done is a legal transition and one stage |
| Clients.MakeSocket | torclient.c:202-229 | an unused client gets a descriptor no client has, or nothing changes |
| Clients.AuthSocket | torclient.c:238-257 | a connected client is sent the authentication and waits for its reply, or nothing changes |
| Clients.TellConnect | torclient.c:285-302 | an authenticated client is sent relay, connection count and background flag; the background assertion is a precondition |
| Clients.SetBwRate | torclient.c:327-344 | a client on its target is sent its rate with accumulation 1 for background and 32 otherwise |
| Clients.StartMeasurement | torclient.c:366-380 | a client whose rate is set is sent the duration and is measuring |
| Clients.ReadReply | torclient.c:263-363 | a good reply advances exactly the waiting client by one state, a bad one changes nothing |
| Clients.OutputResult | torclient.c:383-423 | the client becomes done exactly on an empty read or the END line, result lines leave it measuring, and only an error is a failure |
| Clients.NextAvailable | torclient.c:434-447 | the first unused client of the class that accepts a connection; every earlier one was tried and refused |
| Clients.MarkFailed | torclient.c:450-452 | any client in use can be marked failed |
| Clients.FinishedWithMeta | torclient.c:455-490 | a done or failed client ends up unused, without descriptor and owner |
| Staffing.PerfectMatching | flashflow.c:376-407 | when owned classes and host classes agree as multisets, pairing by rank within the class matches every owned client with exactly one host entry of its class and leaves none |
| Passes.FirstFreePairs | flashflow.c:384-386 | the first free host entry of the client's class is the one it is paired with |
| Passes.AllTaken | flashflow.c:405-407 | after the last client no host entry is unassigned |
| Passes.SendEnabled | flashflow.c:379-404 | in the middle of a pass the next client may be sent its message |
| Protocol.StepInv | flashflow.c:296-590 | every event keeps the coordinator invariant: unused = unowned = no descriptor, distinct descriptors, owners run, a prefix of the host list is manned, nobody authenticates before all are connected, stages of one crew differ by at most one |
| Runs.RunInv | flashflow.c:296-590 | the invariant holds after every run |
| Progress.StepRank | flashflow.c:296-590 | every event but result lines and the deadline reset strictly lowers the rank |
| Progress.RankNonNegative | flashflow.c:296-590 | the rank is never negative |
| Progress.StepBudget | flashflow.c:296-590 | every run, of any schedule, takes at most as many steps as the initial rank |
| Progress.InitialRank | flashflow.c:289-296 | the initial rank is two for each waiting measurement plus ten for each of its host entries |
| Liveness.BlockedNeverStarts | sched/src/lib.rs:320-353 | a set whose members each repeat a depend, panic at their start, or depend on a member stays waiting in every run |
| Liveness.SomethingReady | sched/src/lib.rs:320-332 | of a set closed under depends and without a blocked part, with none in progress and something incomplete, some measurement is ready and does not panic |
| Liveness.ViableIffOrdered | sched/src/lib.rs:171-182 | having no blocked set is having a topological order of what is pending, without repeated depends or panics |
| History.StatusTellsHistory | sched/src/lib.rs:320-353 | a measurement of the schedule is started at most once, ended at most once, and its status says which has happened; a leftover does neither |
| History.StartsFollowDependencies | sched/src/lib.rs:323-328 | in every run of every schedule a start comes after the one end of each dependency, and is the first start |
| History.EndsAreCounted | flashflow.c:465-476 | successes plus failures are the measurements completed since the load |
| History.FinishedRun | flashflow.c:591-594 | when all is complete, successes plus failures are all that was not left over, the whole table exactly when nothing was, and every client is as it was at first |
| History.StageTellsHistory | torclient.c:18-127 | a client's state is what has been sent to it and answered since it was connected |
| History.PhaseBarrier | flashflow.c:376-463 | commands go out in order, and one is sent to a client only after every client of the measurement gave its good reply to all earlier ones |
| History.CrewKept | flashflow.c:379-435 | from authentication on a measurement keeps its clients for as long as one of them works for it |
| History.SamePairing | flashflow.c:379-435 | the connect pass and the later bandwidth pass take a client's values from the same host entry |
| History.SentAsScheduled | torclient.c:285-380 | every command in every run carries relay and connections, or rate, of a host entry of the client's own class, the background flag and accumulation 1 for classes beginning with "bg" and 32 for others, and the measurement's duration |
| History.ExtendedOnce | flashflow.c:441-443 | a deadline is reset at most once |
| History.DeadlineOrigin | sched/src/lib.rs:52-59 | the deadline of a running measurement is 3 * dur / 2 after its start or after its one reset |
| History.DueMeansRecent | flashflow.c:315-327 | a measurement not overdue at a check was started, or had its one reset, at most 3 * dur / 2 seconds before |
| Starting.StartedIffCanStart | sched/src/lib.rs:320-353 | some run starts a measurement, and survives it, if and only if it is pending and in no blocked set |
| Starting.FinishableIffViable | sched/src/lib.rs:171-182 | some run, without a panic on the way, finishes the schedule if and only if no set of measurements is blocked |
| Starting.ReadyIffCanBeReady | sched/src/lib.rs:320-332 | some run gets to hand out a measurement if and only if it is pending, repeats no depend, and its depends can be started |
| Starting.EndsFirstIffNeeded | sched/src/lib.rs:320-353 | in every run one measurement has ended when another starts, if and only if the other needs it, directly or not, or is never started |
| Outlasting.NoneMeansBeside | sched/src/lib.rs:320-332 | when nothing is ready while a measurement runs, what else runs is such that it can be kept running beside it: independent, staffed together from the client list, and needed by whatever panics and does not need the measurement |
| Outlasting.MustOutlast | flashflow.c:328-369 | a measurement that has been at work through n consultations of the scheduler has n measurements independent of it, or some that can be kept running beside it |
| Outlasting.StageByConsults | flashflow.c:372-581 | a client gets at most two stages further, one command and one reply, with each consultation |
| Assembly.NoCycle | sched/src/lib.rs:320-332 | of two measurements at most one needs the other if one of them can be started |
| Assembly.StableBase | flashflow.c:328-369 | when measurements can be kept running beside one that can be started, some run has them all fully connected and authenticating, with nothing left to hand out |
| Succeeding.SucceedsIff | flashflow.c:328-478 | some run in the order of the main loop finishes a measurement successfully if and only if it can be started, has a duration and hosts, there are clients enough of each class, no background class is given other than one connection, and it can be kept at work through four more iterations |
| Succeeding.ReportsIff | torclient.c:366-423 | some run has a report read for a measurement under the same condition with three iterations instead of four |
| Succeeding.NoThreatOutlasts | flashflow.c:328-369 | where nothing that can be ready panics, whatever can be started and staffed can be kept at work through any number of iterations |
| Aborts.PanicReached | sched/src/lib.rs:326 | some run in the order of the main loop reaches a start that panics if and only if a measurement three times whose duration does not fit in 32 bits, or whose relay or a class of which has a NUL (lines 36 and 369), is pending, repeats no depend and depends only on what can be started |
| Aborts.AssertReached | torclient.c:285-302 | some run in the order of the main loop, without a panic before, fails the background assertion if and only if a measurement that gives a class beginning with "bg" other than one connection can be started, has a duration, can be staffed from the client list, and can be kept at work through one more iteration |
| Aborts.CrashesIffHarmful | flashflow.c:296-590 | some run stops the program by a panic or an assertion if and only if a panic can be reached, or a measurement that misuses a background class can be started, has a duration and can be staffed |
| Aborts.RunningNoPanic | flashflow.c:318-374 | whatever runs has parameters that can be handed to C and a deadline that does not overflow, on any input |
| Aborts.HarmlessStaffed | flashflow.c:376-408 | on harmless input a fully connected measurement asks one connection of each background client |
| Heads.AwaitsOrAnswered | flashflow.c:131-185 | a measurement at a loop head awaits a reply unless all its clients have given the one they owe |
| Heads.RunningAtMostClients | flashflow.c:259-363 | running measurements own disjoint non-empty sets of clients, so there are at most as many as clients |
| Polling.NoLostWakeup | flashflow.c:479-515 | at least as many descriptors are waited on as measurements are known |
| Polling.ListsAreWaiters | flashflow.c:479-501 | the four lists have together one entry for every client waiting for a reply |
| Polling.Registered | flashflow.c:529-580 | a registered descriptor belongs to a client, in the state of its list |
| Polling.GoodStaysPaired | flashflow.c:535-568 | a good reply is allowed and keeps the measurement in its phase pair |
| Rounds.IdleMeansOver | flashflow.c:511-514 | with nothing running and nothing ready a viable schedule is finished |
| Rounds.RoundProgress | flashflow.c:303-327 | an iteration lowers the rank, or changes nothing and then either brings the last deadline nearer or leaves the clock where it was |
| Silence.CutOffAfterEleven | flashflow.c:303-313 | from the step the counter takes in an iteration alone: at every head it is the number of waits without a report since the last report, cutoff or beginning, and never above eleven |
| Rounds.CutOffOnlyAfterEleven | flashflow.c:303-527 | in every run of the main loop a head fails everything that runs for want of progress exactly when there have been eleven waits that timed out or failed since the last report, the last such head or the beginning |
| Rounds.EndlessMeansStopped | flashflow.c:296-590 | a run of the main loop on a viable schedule that does not end comes to a point from which neither the clock nor anything else ever changes, with some client measuring |
| Rounds.StoppedIsEndless | flashflow.c:303-581 | at a head where nothing is overdue, nothing can be started, everything that runs awaits a reply and a client is measuring, the loop can go on reading lines for ever with a clock that stands still |
| Rounds.EndlessExists | flashflow.c:296-581 | on every viable schedule of which a measurement can succeed, some run in the order of the main loop comes to such a head |
| Rounds.ReportsForEver | torclient.c:383-423 | a measuring client can report any number of times in a run, and the world stays as it is |
| Rounds.ListensForEver | flashflow.c:328-581 | from such a head a run in the order of the main loop goes on with any number of iterations that start nothing and read a report, and the world stays as it is |
| Rounds.BoundedIterations | flashflow.c:296-590 | every run of the main loop on a viable schedule in which no second holds more than k iterations that only read result lines has at most as many iterations as the budget at its first head |
| Coordination.Coordinator.constructor | flashflow.c:255-267 | the loop invariant holds at first, for every harmless schedule and client list |
| Coordination.Coordinator.MeasurementFailed | flashflow.c:198-224 | exactly the measurement's clients are given up, it is completed, and its id, if known, is swap-removed |
| Coordination.Coordinator.ReleaseAll | flashflow.c:206-211 | exactly the clients of the measurement become unused |
| Coordination.Coordinator.ForgetId | flashflow.c:216-223 | the id is replaced by the last one, or nothing changes |
| Coordination.Coordinator.FillParams | flashflow.c:35-56 | the parameters are the entry of the table, and usable exactly when it has a duration and hosts; its names must become C strings |
| Coordination.Coordinator.ConnectOne | flashflow.c:77-84 | one more host entry is manned by an unused client of its class, and giving the measurement up would undo it; or every unused client of the class refused and nothing changes |
| Coordination.Coordinator.FindAndConnect | flashflow.c:66-86 | on success every host entry is manned; it fails only without a duration or hosts or for want of clients that accept; in any case giving the measurement up undoes all it did |
| Coordination.Coordinator.SendAuth | flashflow.c:88-99 | on success every client of the measurement has been sent the authentication; in any case giving it up undoes all it did |
| Coordination.Coordinator.Remember | flashflow.c:363 | the array of known ids has room for the new one |
| Coordination.Coordinator.BringUp | flashflow.c:356-368 | a started measurement is known, fully connected and authenticating, or is given up and counted with everything else as before, for want of parameters, of clients that accept, or of a send that works |
| Bookkeeping.ShortWhenBusy | flashflow.c:77-84 | when no connection is refused, a start is short of clients exactly when it has a duration and of some class fewer clients are unused than there are host entries |
| Crews.StaffableIff | flashflow.c:77-84 | a measurement can be staffed when of no class there are more host entries than clients |
| Coordination.Coordinator.StartNext | flashflow.c:328-369 | with nothing ready nothing changes; otherwise one ready measurement is started and brought up, or given up; then the passes may begin |
| Coordination.Coordinator.IsTotally | flashflow.c:131-185 | true exactly when every client of the measurement is in the state |
| Coordination.Coordinator.ServeClient | flashflow.c:384-402 | the client is sent the values of the host entry it is paired with, which was free, and exactly that entry is marked; or nothing changes |
| Coordination.Coordinator.AssignPass | flashflow.c:379-439 | on success every client of the measurement is one state on and every host entry is marked; in any case giving it up undoes the pass |
| Coordination.Coordinator.Assign | flashflow.c:376-439 | the pass moves exactly the clients of the measurement one state on, or gives the measurement up and counts it |
| Coordination.Coordinator.TellPhases | flashflow.c:375-439 | when a pass is due it moves every client of the measurement one state on or gives it up; when none is due nothing changes |
| Coordination.Coordinator.MeasurePass | flashflow.c:444-462 | on success as many clients were told as the host list has entries |
| Coordination.Coordinator.Begin | flashflow.c:441-463 | the deadline is reset at a clock reading in between and every client measures, or the measurement is given up and counted |
| Coordination.Coordinator.Conclude | flashflow.c:465-476 | the measurement is completed and its clients are given up, its id is swap-removed, one success is counted and nothing else changes |
| Coordination.Coordinator.AdvanceOne | flashflow.c:372-478 | after its turn a known id awaits replies, or is removed, or the loop is left with a failure |
| Coordination.Coordinator.AdvanceKnown | flashflow.c:372-478 | unless cut short by a failure the loop visits every known id exactly once and leaves each awaiting replies |
| Coordination.Coordinator.FailAll | flashflow.c:303-313 | no id is known afterwards |
| Coordination.Coordinator.CheckDeadline | flashflow.c:316-326 | one id is given up exactly when the clock just read is past its deadline, and kept otherwise |
| Coordination.Coordinator.Sweep | flashflow.c:315-327 | what is kept was due when the sweep began, what is dropped was overdue and is complete |
| Coordination.Coordinator.HeadChecks | flashflow.c:301-327 | after more than 10 waits in a row without a report nothing runs any more, the counter is 0 and a cutoff is noted; otherwise the counter stays and whatever is dropped was overdue; what still runs is due; every cutoff ever noted came right after eleven such waits, and no twelve of them are without one |
| Coordination.Coordinator.BuildPoll | flashflow.c:479-501 | the lists are the descriptors of the clients in each waiting state |
| Coordination.Coordinator.MetaWithFd | flashflow.c:116-122 | a client with the descriptor, or -1 when none has it |
| Coordination.Coordinator.HandleReply | flashflow.c:535-577 | a good reply moves its client one state on, result lines change nothing, a bad reply gives up exactly its measurement and counts it |
| Coordination.Coordinator.HandleEvent | flashflow.c:529-580 | a reported descriptor is found and is in the list of its client's state; that client is answered, or a failure is counted |
| Coordination.Coordinator.HandleEvents | flashflow.c:529-581 | unless a failure ends the loop, every client reported has taken its step or reported and goes on measuring, and no other client has changed |
| Coordination.Coordinator.Await | flashflow.c:516-527 | the wait is noted as one without a report exactly for a timeout or an error |
| Coordination.Coordinator.PollOnce | flashflow.c:479-581 | nothing is waited on exactly when nothing runs; the counter goes up by one without a report, to 0 with one, and stays when nothing is waited on; all that was reported is handled unless a failure is counted |
| Coordination.Coordinator.Iterate | flashflow.c:296-590 | one iteration keeps the loop invariant, with the meaning of the counter, and extends the run in the order of the main loop; either the rank drops or nothing changed and the iteration was idle, or timed out or read lines only, with nothing overdue, nothing ready and everything that runs awaiting a reply |
| Coordination.Coordinator.NextHead | flashflow.c:516-527 | the environment moves the clock on, or leaves it; a second holds finitely many iterations that report something |
| Coordination.Coordinator.NeverFinished | flashflow.c:296 | with a blocked set the loop condition stays true |
| Coordination.Coordinator.Run | flashflow.c:296-594 | on a viable and harmless schedule the loop ends, with everything complete, this schedule counted, the count equal to the table exactly without leftovers, and every client given up |
| Text.TrimIs | sched/src/lib.rs:78 | trimming leaves the part from the first to the last character that is not whitespace |
| Text.SpaceCodes | sched/src/lib.rs:78 | whitespace is that of Unicode, code by code |
| Text.ParseU32Iff | sched/src/lib.rs:96 | a number is at least one decimal digit after one plus sign at most, with a value below 2 to the 32nd |
| Text.ParseAllIff | sched/src/lib.rs:100-108 | a list is read exactly when each of its pieces is |
| ScheduleText.NewFromString | sched/src/lib.rs:77-151 | a line is skipped exactly when it is whitespace or its first other character is '#'; otherwise the loop over the pieces reads exactly the words of the line, and stops exactly on an unreadable word or a failed check |
| ScheduleText.WordsInOrder | sched/src/lib.rs:90-94 | the words are the trimmed pieces that are not empty, each once and in order |
| ScheduleText.ReadIff | sched/src/lib.rs:82-150 | which words make which measurement: one, two, three, six or seven of them, the first the id, then relay, duration, three lists of one length, and depends; nothing else is read |
| ScheduleText.PositiveInOrder | sched/src/lib.rs:103-109 | of the depends only zeros are dropped |
| ScheduleText.TakeWord | sched/src/lib.rs:95-112 | one word is read into its variable or makes the line unreadable |
| ScheduleText.BuildHosts | sched/src/lib.rs:123-140 | the host list is built in order, and accepted exactly when at most one entry is "bg", and that with one connection and 125000 bytes per second |
| ScheduleText.ParsedIsSound | sched/src/lib.rs:114-150 | a measurement that is read has a nonzero id, does not depend on itself or on 0, and respects the background rule |
| ScheduleText.ParsePrinted | sched/src/lib.rs:256-269 | a printed line is read back as the measurement it was printed for |
| Generator.Share | sched/src/lib.rs:232-241 | 160 shared out and rounded up: the total is at least 160 and less than 160 plus the number of hosts |
| Generator.TotalConnections | sched/src/lib.rs:244-255 | the connections of a relay add up to the shared total plus one for a background host, so the assertions hold |
| Generator.CollectClasses | sched/src/lib.rs:223-229 | for every map order each class is listed once with its bandwidth |
| Generator.ConnsFor | sched/src/lib.rs:230-250 | fails exactly when there is no class but "bg", otherwise each class gets its connections |
| Generator.PrintOne | sched/src/lib.rs:222-274 | the line is the printed form of a measurement with the relay's hosts, 30 seconds and the given depends |
| Generator.HostsMean | sched/src/lib.rs:222-255 | each class of the relay has one entry with its bandwidth; "bg" has one connection, and the others share 160, rounded up |
| Generator.GeneratedMeans | sched/src/lib.rs:217-281 | each relay of each set has exactly one line, for a measurement of 30 seconds with that relay's hosts, and ids count up through the sets |
| Generator.Generate | sched/src/lib.rs:217-281 | stops exactly when some relay has no class but "bg"; otherwise each relay of each set has one line, ids count up, and each set depends on the one before |
| Startup.LoadedInitial | flashflow.c:277-292 | a schedule loaded over complete leftovers and a fresh client list satisfy the assumptions of the run theorems |
| Startup.CycleIsLoaded | sched/src/lib.rs:171-182 | a schedule with a cycle passes every load check and can never be finished |
| Startup.RepeatIsLoaded | sched/src/lib.rs:171-182 | so does one with a repeated depend |
| Startup.BadClassCrashes | torclient.c:180 | a class that merely begins with "bg" is read with two connections, and with any client list that has such a client some run fails the assertion |
| Startup.BadDurationCrashes | sched/src/lib.rs:326 | a duration is read whose triple does not fit in 32 bits, and with any client list some run panics |
| Startup.BadNameCrashes | sched/src/lib.rs:35-39 | a name with a NUL is read, and with any client list some run panics |
| Startup.DoomedGetsNowhere | sched/src/lib.rs:320-332 | beside a ready measurement that panics, an independent one without depends can be started, but in no run succeeds or fails the background assertion, whatever its host entry and the client list |
| Startup.DependsPointBack | sched/src/lib.rs:273-280 | depends of a generated measurement are exactly the earlier ids of the set before, without repetition |
| Startup.GeneratedParses | sched/src/lib.rs:256-287 | every generated line is read back as its measurement |
| Startup.GeneratedLoads | sched/src/lib.rs:288 | a generated schedule passes the load checks |
| Startup.LayeredViableIff | sched/src/lib.rs:217-281 | a schedule laid out like a generated one can be run to the end exactly when none of its measurements panics |
| Startup.GeneratedViable | sched/src/lib.rs:217-281 | a schedule generated from names without NULs can be run to the end |
| Startup.GeneratedHarmless | sched/src/lib.rs:217-281 | on a generated schedule from names without NULs no run stops the program, whatever the client list |
| Startup.NeedsIffNoGap | sched/src/lib.rs:276-280 | in a generated schedule a measurement needs one of an earlier set, directly or not, exactly when no set between them is empty |
| Startup.SetsInOrderIffNoGap | sched/src/lib.rs:217-281 | in every run of a schedule laid out like a generated one, a measurement of one set has ended when one of another starts, if and only if the first set is earlier and no set between them is empty, or something that leads to the other panics |
| Startup.GeneratedInOrder | sched/src/lib.rs:217-281 | for a schedule generated from names without NULs, exactly when the first set is earlier and no set between them is empty |
| Records.ReportIsRead | torclient.c:409-415 | the line written for a per-second report is the nine words in this order, and is accepted as the record of that relay, second and bandwidth |
| Records.AcceptedIff | v3bw.c:105-230 | a line is accepted with these values exactly when it is nine words separated by single spaces, then newlines, of which the third is 40 characters of 0-9 and A-F, the fifth and sixth begin with 650 and SPEEDTESTING, and the seventh and eighth are numbers that are not negative |
| Records.AsLongIff | v3bw.c:118-128 | a number is decimal digits after whitespace and one sign at most; beyond 63 bits it is the largest that fits |
| Records.ReadAllInOrder | v3bw.c:164-232 | the records are those of the accepted lines, each once and in order |
| Bandwidth.MsmInfo.constructor | v3bw.c:42-51 | the first record alone: its bandwidth in the first of 60 seconds, of which one is used |
| Bandwidth.MsmInfo.Add | v3bw.c:61-102 | the array in place stays the sums by second of all records so far: a record within 60 seconds of the first is added to its second, and the seconds used reach as far as it |
| Bandwidth.SummaryMeans | v3bw.c:34-102 | 60 sums from the first time stamp on, used up to the last of these seconds that a record reaches |
| Bandwidth.UsedIsLast | v3bw.c:95-100 | slots past the used ones are zero and the last used one is reached by a record |
| Bandwidth.WindowConserves | v3bw.c:90-94 | the slots add up to the bandwidth of the records in the window |
| Bandwidth.ReadInput | v3bw.c:151-236 | the table has an accumulator for exactly the relays with accepted records, each over that relay's records |
| Bandwidth.EnterNew | v3bw.c:223-225 | a new relay gets an accumulator of its own |
| Bandwidth.EnterMore | v3bw.c:226-230 | a further record goes to its relay's accumulator and to no other |
| Bandwidth.OrderIndependent | v3bw.c:161-233 | any reordering that keeps each relay's first time stamp gives the same summary |
| Bandwidth.CalcMedian | v3bw.c:22-32 | the order statistic at position half the length, and 0 for no entries; the input is unchanged |
| Bandwidth.MedianIsOrderStat | v3bw.c:28-29 | the entry sorted into the middle is the order statistic at half the length |
| Bandwidth.OrderStatCounts | v3bw.c:28-29 | the order statistic at a position is the entry with at most that many entries below it and more than that many not above it |
| Bandwidth.OrderStatUnique | v3bw.c:28-29 | there is only one such entry |
| Bandwidth.MedianPermutes | v3bw.c:22-32 | the median does not depend on the order of the entries |
| Bandwidth.PublishedIsSeen | v3bw.c:249-254 | any published value but the minimum comes from at least 25 seconds, half of which, rounded up, saw that much or more |
| Bandwidth.Publish | v3bw.c:246-256 | for every table order each relay is published once, with 20 for fewer than 25 seconds used and otherwise the median of its own seconds |
| Bandwidth.GenerateFile | v3bw.c:150-259 | the file has exactly the relays with accepted records, with 20 for fewer than 25 seconds used and otherwise the median of the sums of its own records |
| Bandwidth.FileOrderIndependent | v3bw.c:161-255 | any reordering of the records that keeps each relay's first time stamp gives the same file |
| Program.ReadText | sched/src/lib.rs:196-207 | reading stops exactly when some line panics; otherwise the measurements are those of the lines that hold one, each once and in order |
| Program.GeneratedIsRead | sched/src/lib.rs:217-288 | the lines of a generated schedule are read as exactly the measurements they were generated for |
| Program.GeneratedAccepted | sched/src/lib.rs:155-194 | a generated schedule with anything in it is accepted |
| Program.MainLoopOnce | flashflow.c:255-604 | from text and client list to the end, on input that is viable and harmless if it is accepted: it gets there exactly when there are clients and the schedule is accepted, and then all is complete, the counts add up to this schedule, and match the logged total exactly when no earlier id lies outside it; the file is that of the result lines |

## Left out

- Sockets, name lookup, the text of control port replies and its splitting over reads: each is an arbitrary outcome, good or bad, lines or end.
- Registering and deregistering with epoll: `Polling.EpollWait` may report any of the descriptors in the lists.
- Clients.OutputResult: does not model the output file; the format of the lines written is modelled in `Records.ResultLine`.
- Clients.SendCommand: stands for the part the four send functions share; the four that call it say what is sent.
- Clients.ReadReply: stands for three functions that differ in the text they accept.
- Bandwidth.MsmInfo.Add: sums are unbounded integers; overflow of a 64-bit sum or time stamp is not modelled.
- Wherever some run is said to exist (`Starting`, `Succeeding`, `Aborts`, `Rounds.EndlessExists`), it is one in the order of the main loop (`Looping.Looped`), which leaves open which client is served first and when a measurement fails; the class is proved to stay within these runs, not to take each.
- Being killed by SIGPIPE on a send (torclient.c:250, 296, 338, 374), and the terminator written one past the buffer when a read fills it (torclient.c:400): stopping the program here means a panic or an assertion.
- Program.MainLoopOnce: is stated for input on which no run stops the program; on other input a call may still return, as when the clients of a misused background class never all connect.
- What the output file holds at the end is an input to `Program.MainLoopOnce`; reading the schedule as JSON, which always ends in a panic, is left to `Generator`.
- Bandwidth.Qsort: stands for the library's sort.
- Records.ReadRecord: a line of newlines only, on which `trim_newlines` reads before the buffer, is read as an empty line.
- Generator.Generate: bandwidths are given as whole bytes per second; rounding of floating-point input and the closing panic of `sched_new_from_json` are not modelled.
- Reading the client file, rotating output files, usage text, logging and freeing memory.
- Host, port and password of a client, which only reach the socket calls and the log.
