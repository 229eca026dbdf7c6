# Ropeway simulation: verified model

The repository simulates a ropeway with UNIX processes: tourists, a worker at each platform, a
cashier and a time server, joined by System V semaphores, message queues and shared memory. What
it promises spans several processes and every interleaving of them. This project models the
processes as state machines whose steps are single semaphore operations, messages, signal
deliveries and critical sections, and proves what every run keeps. Where one process changes its
own data step by step, a class does the same to arrays and fields and is proved against the
function the state machine uses.

| file | models |
|---|---|
| `ChairTracking.dfy` | the upper worker's swap-and-pop table, as an array, a sequence and a map |
| `Pipeline.dfy` | tourists, gates, platform queue, chairs, boarding and arrival queues, both workers |
| `Gates.dfy`, `Boarding.dfy`, `BoardingSteps.dfy`, `Passengers.dfy`, `PassengerSteps.dfy`, `ArrivalStep.dfy` | the four parts of the pipeline's invariant and that every step keeps them |
| `PipelineTheorems.dfy`, `SeatTheorems.dfy`, `GateTheorems.dfy` | what every run of the pipeline satisfies |
| `Progress.dfy`, `Homecoming.dfy` | deadlock freedom, and that everyone can go home |
| `Rides.dfy` | stretches of tourists' steps, for building runs |
| `Sharing.dfy`, `LostPermit.dfy` | chair conservation without distinct ids: exactly where it holds, and the histories in which a reused id costs a permit |
| `LowerWorker.dfy` | the lower worker's own buffer and loop body, refined by stretches of pipeline steps |
| `Emergency.dfy`, `EmergencySteps.dfy`, `EmergencyTheorems.dfy` | the two-worker emergency protocol and the tourists waiting for it |
| `Alarms.dfy` | what a worker has done, and in which order, between a danger or SIGUSR1 and its next service |
| `Clock.dfy`, `ClockTheorems.dfy` | the pause-compensated clock and its readers |
| `Ropeway.dfy`, `RopewayTheorems.dfy` | pipeline, protocol and clock in step with each other |
| `Responses.dfy`, `Stops.dfy` | how workers and tourists of the whole ropeway answer an emergency |
| `Outings.dfy` | runs of the whole ropeway built piece by piece |
| `Waiting.dfy` | tourists wait for emergencies wherever there can be one |
| `Diversion.dfy`, `EmergencyLimits.dfy` | what the protocol does not promise, and exactly when it does |
| `Tenures.dfy`, `ShortTenures.dfy` | how long emergencies last in running time, and exactly when they last their duration |
| `Statistics.dfy`, `StatisticsTheorems.dfy` | the statistics tables and the final report |
| `TouristSetup.dfy` | slots of a party from its arguments |

`dafny verify dfyconfig.toml` checks everything.

## Semantics and assumptions

`semop` by n is atomic and blocks until it can be done; `msgrcv` with a negative type returns the
first message of the lowest type (System Interfaces volume of IEEE Std 1003.1). A critical section
under `SEM_STATE` or `SEM_STATS` is one step. Time is exact.

- A1. There is no shutdown and no call fails; the waits on `SEM_STATE` and on the
  emergency-clear semaphore (`src/processes/lower_worker.c:260`,
  `src/common/worker_emergency.c:93`, `src/ipc/sync.c:32`) are not interrupted. An interrupted
  `msgrcv` of the lower worker is a step of the model.
- A2. SIGUSR1 comes only from `src/common/worker_emergency.c:104`, and the simulated day does not
  start at minute 0. Of a day that starts at 00:00 the results hold only where no emergency
  can happen: an initiator then forgets itself, because the code reads a start time of 0 as "no
  emergency", and in the whole ropeway it is never diverted if and only if the day starts later, or
  danger detection is disabled, or nobody can board (`NeverDivertedIff`).
- A3. No two chairs under way bear the same id. A run carries this as a hypothesis on its states
  (`Pipeline.DistinctIds`). `SpreadMakesIdsDistinct` derives it from a spread of fewer than 72
  departures, and `InOrderHistoriesAreRuns` from completion in order alone. Without it
  chairs are conserved, over every history of a configuration, if and only if no two different
  parties that fit the station fit one chair together (`AlwaysConservedIff`). For any two that do,
  `IdsComeRound` is a run to a state with two chairs of one id under way, and `PermitIsLost` a
  history that ends with all chairs arrived and 35 permits.
- A4. A pause is settled, that is, `handle_resume` runs, before the next stop, where a statement
  says so (`Clock.SettledBeforeStop`).
- A5. A pending SIGUSR1 is delivered no later than the return of the receiver's blocking `msgrcv`
  in the acknowledging code. At any other point delivery may be delayed for as long as one likes.

Time is told from the history of stops, continues, resumptions and ticks alone, never from the
server's own variables. *Running time* is the real time during which the time server is not
stopped. *Lag* is running time between the end of a pause and its settling: the code subtracts it
too, because it measures a pause up to `handle_resume`. An *overtaken* pause is one that a further
stop finds unsettled: the code never subtracts it. The clock counts running time less lag plus
overtaken pauses (`TickPublishesCounted`), and counts running time exactly, at every moment, if
and only if no time passes between the end of a pause and its settling (`ExactIffPrompt`).

Workers measure the danger duration on the published clock, and there every emergency lasts it
(`EmergencyLength`). In running time it can fall short by the staleness of the published time when
the lock was acquired, and by a millisecond (`TenureRunning`, `DangersRunning`). In running time
every tenure lasts its duration, in every run, if and only if danger detection is disabled, or
nobody can board, or the duration is zero (`TenuresLastIff`), and so for the intervals between
dangers (`DangersLastIff`): the model bounds no interval between ticks. *Nobody can board* means
that every party needs more of the lower station than its capacity. It matters because a worker
checks for danger only after it has buffered a request or counted an arrival
(`src/processes/lower_worker.c:331-332`, `src/processes/upper_worker.c:262-263`); in the whole
ropeway a worker passes the head of its loop, danger or not, before it takes the next message.

Where code and documentation disagree, the model follows the code: the repository's README gives
VIPs message type 1 on the platform queue, but every request is sent with type 2
(`src/tourist/boarding.c:43`), and type 1 is used only for requests put back.

The handshake is not live. A worker that reads emergency_stop before SIGUSR1 reaches it keeps the
signal, and acknowledges again when the emergency is over (`HandshakeStrands`); until the other
platform detects a new danger it waits, with emergency_stop raised (`StrandedUntilDanger`). Nor
does emergency_stop stay raised for the whole of an emergency (`StopDoesNotLast`). Any one party
that can board is enough for both: neither happens, in any run of the whole ropeway, if and only if
danger detection is disabled or nobody can board (`NeverStrandsIff`, `StopLastsIff`).

What emergency_stop is for holds on every run of the whole ropeway: a worker that detected danger or
was signalled serves nobody before the emergency has run its course (`DangerStopsService`,
`SignalStopsService`), nobody has a seat that was not given with emergency_stop clear
(`EverySeatWithoutStop`), and no tourist asks for one without having read it clear or been freed from
waiting (`EveryRequestIsCleared`).

Two results are exact where the repository relies on a default. Without danger detection the
pipeline is deadlock free, and everyone can go home from every reachable state, if and only if no
party is larger than the lower station (`DeadlockFreeIffEveryoneFits`, `EveryoneCanGoHomeIff`; a
capacity of 3 is always enough, `CapacityOfThree`). And
the argument parser accepts a negative number of kids, which is the only way slots leave the range
1 to 3 (`SlotsInRangeIff`).

## Model

| member | source | states |
|---|---|---|
| ChairTracking.TrackRefinesMap | src/processes/upper_worker.c:100-130 | one arrival does to the array exactly what it does to the map of partly arrived chairs, and posts the same permit, if and only if at most 64 chairs are incomplete |
| ChairTracking.StreamRefinesMap | src/processes/upper_worker.c:241-260 | over every arrival stream with at most 64 incomplete chairs at a time, stored ids stay distinct with 1 <= arrived < expected, the array equals the map, and both return the same number of permits |
| ChairTracking.SharedIdMisleads | src/processes/upper_worker.c:241-260 | for every chair of two or more parties: when a second chair shares its id, a permit is returned before the first chair has arrived, and its last arrival returns none |
| ChairTracking.ChairTable.GetChairTracker | src/processes/upper_worker.c:100-118 | finds the chair's entry or appends one, changing no other; no entry exactly when the array is full |
| ChairTracking.ChairTable.RemoveChairTracker | src/processes/upper_worker.c:126-130 | the last entry takes the removed one's place; an index out of range changes nothing |
| ChairTracking.ChairTable.CountArrival | src/processes/upper_worker.c:241-260 | the array and the permit posted after one arrival are those of the abstract step that the refinement lemmas are about |
| Gates.MoveBalances | src/tourist/main.c:119-226 | every operation of a tourist keeps, for every gate and the station, semaphore value plus permits held equal to the initial value, and the station count equal to the slots counted in; what is held is told from where a tourist stands, one entry permit by everyone but VIPs |
| GateTheorems.EntryGates | src/tourist/main.c:119-149 | at most 4 tourists, none of them a VIP, are in the entry gates; a tourist at the gates gets in at once if and only if it is a VIP or fewer than 4 are |
| GateTheorems.StationDoors | src/tourist/main.c:129-134 | a party gets into the lower station if and only if its slots fit beside those of the parties inside |
| GateTheorems.PlatformAndExitGates | src/tourist/main.c:177-205 | at most 3 tourists are between platform gate and chair and at most 2 in the exit gates, and each gate lets one more through if and only if there are fewer |
| GateTheorems.FrightenedLeave | src/tourist/main.c:158-174 | a party in the station too frightened to ride leaves without being held up and gives back exactly the slots it took |
| SeatTheorems.StationBound | src/tourist/main.c:123-193 | for any number of tourists, lower_station_count is the slots of the tourists between its two updates and never exceeds the capacity; all gates conserve their permits |
| Gates.InitBalanced | src/ipc/sem.c:41-50 | the initial semaphore values are 4 entry gates, the station's capacity, 3 platform gates and 2 exit gates |
| Boarding.ReceiveTakesFront | src/processes/lower_worker.c:235-239 | msgrcv of the lowest type removes exactly the head of the seating order, type 1 before type 2 |
| BoardingSteps.StepPlatform | src/processes/lower_worker.c:235-329 | every step keeps the seating order, the slot count, the chair log and at most one requeue for lack of room |
| PipelineTheorems.RunInv | src/processes/lower_worker.c:188-329 | the joint invariant of gates, platform, passengers and tracking table holds in every state of every run |
| PipelineTheorems.ChairConservation | src/processes/lower_worker.c:101-141 | SEM_CHAIRS plus chairs dispatched and not fully arrived is 36 in every state |
| PipelineTheorems.OnePermitPerChair | src/processes/upper_worker.c:241-260 | the permits returned belong to different chairs, to exactly those all of whose passengers have been counted |
| PipelineTheorems.PermitAtLastArrival | src/processes/upper_worker.c:241-260 | counting an arrival credits its own chair, and returns that chair's permit exactly when it is the last arrival |
| PipelineTheorems.ArrivalsInTurn | src/processes/upper_worker.c:212-214 | arrivals are counted in the order they were announced: those uncounted later are what is left of the earlier and the new ones after some were taken from the front |
| PipelineTheorems.WaitsOnlyAsNeeded | src/processes/lower_worker.c:106-109 | a chair waiting to leave leaves if and only if fewer than 36 are under way, the workers take a message whenever there is one, and a tourist waits for its confirmation exactly until it is sent |
| PipelineTheorems.PassengersAgree | src/tourist/boarding.c:58-115 | every confirmation goes to the tourist that sent the request; confirmations, passengers and arrivals all name the id and head count of the one chair it went on, and its departure time as long as that is carried |
| PipelineTheorems.EachPassengerOnce | src/tourist/boarding.c:58-115 | a confirmed request is at all times in exactly one of: one confirmation on its way, one tourist on board, one arrival uncounted, counted |
| PipelineTheorems.ChairTakesStretch | src/processes/lower_worker.c:115-140 | a chair carries exactly a stretch of consecutive requests, and all of it once its confirmations are out, so its head count is the number confirmed |
| PipelineTheorems.WrapAroundIsSafe | src/processes/lower_worker.c:280-328 | the worker's chair number is at all times that of the chair being loaded or confirmed, the k-th chair bearing k mod 72 + 1, counting from 0; at most 36 trackers are live, so the table is never full |
| Sharing.NobodySharesConserves | src/processes/upper_worker.c:241-260 | where no two parties that fit the station fit one chair together, SEM_CHAIRS plus chairs not fully arrived is 36 after every history, however often ids are reused |
| LostPermit.IdsComeRound | src/processes/lower_worker.c:325-328 | for any two parties that can share a chair there is a run to a state in which the first and the seventy-third chair are under way under one id |
| LostPermit.PermitIsLost | src/processes/upper_worker.c:100-118 | for any two parties that can share a chair there is a history after which all chairs have arrived in full and only 35 permits exist |
| LostPermit.AlwaysConservedIff | src/processes/lower_worker.c:101-141 | over every history, with no assumption about ids, SEM_CHAIRS plus chairs dispatched and not fully arrived is 36 if and only if no two different parties that fit the station fit one chair together |
| PipelineTheorems.SpreadMakesIdsDistinct | src/processes/lower_worker.c:245-248 | a spread of fewer than 72 departures makes the ids of outstanding chairs distinct |
| PipelineTheorems.InOrderKeepsSpread | include/constants.h:17-18 | completion in order with 36 permits keeps the spread of outstanding chairs below 36 |
| PipelineTheorems.InOrderHistoriesAreRuns | include/constants.h:17-18 | every history in which chairs complete in order is a run: no id in transit is ever reused |
| SeatTheorems.SeatedInOrderOfSending | src/processes/lower_worker.c:235-300 | despite all requeues, parties are confirmed in the order their requests were sent; each request is in exactly one of confirmed, buffer, hand and queue; at most one type-1 message exists |
| SeatTheorems.NoRoomAtMostOnce | src/processes/lower_worker.c:279-300 | no request is put back for lack of room twice |
| SeatTheorems.AtMostThreeWaiting | src/tourist/main.c:177-205 | the unconfirmed requests are those of different tourists, each holding a platform gate, so there are at most three |
| SeatTheorems.SeatBound | src/processes/lower_worker.c:303-309 | the slots counted are those of the pending parties, at most 4; the buffer guard never drops anyone, as at most 3 are pending and fewer when one is in hand |
| SeatTheorems.PackingBound | src/processes/lower_worker.c:279-329 | a chair that left full or for lack of room carries at least 5 slots together with the next; m chairs of which none but the last was interrupted carry at least 5 * (m / 2) |
| Progress.DepartingLive | src/processes/lower_worker.c:106-109 | a chair that waits to leave never blocks the system: some step towards home is enabled and changes the state |
| Progress.TooLargeDeadlocks | src/tourist/main.c:129-133 | for every party larger than the station there is a run that ends with it waiting alone and no step enabled |
| Progress.DeadlockFreeIffEveryoneFits | src/tourist/main.c:119-226 | with danger disabled, every reachable state with a tourist present has an enabled step that changes it, if and only if every party fits the station |
| Progress.CapacityOfThree | src/tourist/main.c:119-226 | a station of capacity 3 or more is always deadlock free with danger disabled |
| Homecoming.HomewardShortens | src/tourist/main.c:107-244 | every step that sets out on no new ride and sees no emergency brings the system nearer to everyone being gone, requeues included |
| Homecoming.GoHome | src/tourist/main.c:107-244 | every run with distinct ids goes on to one after which all tourists are gone, without ever reusing an id |
| Homecoming.EveryoneCanGoHomeIff | src/tourist/main.c:119-226 | with danger disabled, every reachable state has a continuation after which all tourists are gone, if and only if every party fits the station |
| LowerWorker.Worker.DispatchChair | src/processes/lower_worker.c:101-141 | sends, in buffer order, one confirmation to each pending party with the same chair, head count and departure time, and empties the buffer; an empty buffer sends nothing |
| LowerWorker.Worker.OnInterrupt | src/processes/lower_worker.c:242-251 | an interrupted receive tells everyone pending of the chair, in turn, and moves to the next chair number, or does nothing |
| LowerWorker.Worker.OnRequest | src/processes/lower_worker.c:260-329 | with emergency_stop raised a request changes nothing and is put back; without room everyone pending is told, the next chair is empty and the request is put back; if it fills the chair, everyone and it are told; otherwise it is buffered; each time the effect is that of the pipeline's steps taken back to back |
| LowerWorker.ServedRequestMeans | src/processes/lower_worker.c:260-329 | so for the pipeline's own steps: which of the four happens is decided by emergency_stop and the slots alone, and who is told, kept and put back follows |
| LowerWorker.ConfirmsInTurn | src/processes/lower_worker.c:121-140 | the pipeline's one-by-one confirmations add up to the loop's: each pending request once, in turn, then the put-back |
| LowerWorker.ServingIsSteps | src/processes/lower_worker.c:260-329 | serving a request is a feasible stretch of pipeline steps that leaves tourists, gates and the upper worker alone and leads to what the worker's code computes; in an emergency to the request put back and nothing else |
| LowerWorker.InterruptIsSteps | src/processes/lower_worker.c:242-251 | so is what follows an interrupted receive |
| TouristSetup.SlotsInRangeIff | src/tourist/init.c:54-77 | accepted arguments give 1 to 3 station and chair slots if and only if the number of kids is not negative |
| TouristSetup.RefusedIff | src/tourist/init.c:54-68 | arguments are refused if and only if there are kids and the party is not a family with a guardian of 26 or more and at most 2 kids |
| TouristSetup.SlotsByKind | src/tourist/init.c:70-75 | a walker takes 1 slot in the station and on the chair, a cyclist 1 and 2, a family one of each per head; VIPs stay VIPs |
| TouristSetup.AcceptedPartiesAreValid | src/tourist/init.c:70-75 | parties from accepted arguments meet what the pipeline demands of its configuration |
| EmergencyTheorems.StepKeepsProtocol | src/common/worker_emergency.c:73-243 | every operation, signal, restart, danger and clock step keeps the handshake invariant |
| EmergencyTheorems.HandshakeSafety | src/common/worker_emergency.c:136-236 | the worker queue never holds more than one message, no worker gets an unexpected type, and the lock is released only with the queue empty and after an answer in this tenure |
| EmergencyTheorems.SingleInitiator | src/common/worker_emergency.c:86-105 | lock value plus holders is one; the holder has no SIGUSR1 pending or flagged and is never in the acknowledging code |
| Alarms.AlarmRunsItsCourse | src/common/worker_emergency.c:73-243 | between trying the lock, or beginning to acknowledge, and its next service a worker has done all of this in this order: as the initiator taken the lock, raised emergency_stop, signalled, asked, heard the answer, cleared emergency_stop, taken over and freed the waiters, returned the lock; otherwise raised emergency_stop, been asked, answered, cleared it |
| Alarms.SignalIsKept | include/common/signal_common.h:41-44 | a SIGUSR1 pending stays pending until it is flagged, and a flag is lowered only at the loop head, to acknowledge |
| Alarms.SignalRunsItsCourse | src/processes/lower_worker.c:188-195 | a flagged worker that comes by its loop head goes through a whole emergency before it serves again |
| Responses.DangerStopsService | src/common/worker_emergency.c:73-105 | in the whole ropeway a worker serves nobody after a danger it detected before it has gone through a whole emergency, as initiator or, if the lock is taken, as receiver |
| Responses.DangerRaisesStop | src/common/worker_emergency.c:78-99 | on any day, a worker that detected danger raises emergency_stop itself before it serves anybody |
| Responses.SignalStopsService | src/processes/upper_worker.c:178-184 | a worker flagged by SIGUSR1 takes at most one more message before it has gone through a whole emergency |
| Responses.LowerWorkerChecksStop | src/processes/lower_worker.c:222-233 | the lower worker comes to its queue only by reading emergency_stop clear |
| Responses.DangerFollowsService | src/processes/lower_worker.c:331-332 | every danger has a request buffered, or an arrival counted, by that worker before it and after its last danger |
| Stops.LoadsOnlyWithoutStop | src/processes/lower_worker.c:260-275 | the chair being loaded takes another party only with emergency_stop clear, and then the one in hand |
| Stops.EverySeatWithoutStop | src/processes/lower_worker.c:260-309 | for every party confirmed or pending there was a moment at which it, in the worker's hand, was given its seat with emergency_stop clear |
| Stops.StopPutsBack | src/processes/lower_worker.c:266-275 | a request in hand decided on with emergency_stop raised is, by the time the worker is back at its queue, the next to be received and of type 1; the chair being loaded, the chairs that left and the confirmations are as they were |
| Stops.AsksOnlyWhenCleared | src/tourist/boarding.c:30-38 | a tourist comes to ask for a seat only by reading emergency_stop clear or by taking a permit that ends its wait |
| Stops.StopHoldsTourists | src/ipc/sync.c:19-30 | a tourist that finds emergency_stop raised looks again, and if it still is, is counted as a waiter |
| Stops.PermitLetsGo | src/ipc/sync.c:31-34 | a waiting tourist goes on if and only if there is a permit, and then asks for its seat without looking again |
| Stops.EveryRequestIsCleared | src/tourist/boarding.c:30-55 | every request was sent by a tourist that, since it last came to the platform, read emergency_stop clear or was freed from waiting |
| Waiting.PartyWaits | src/ipc/sync.c:19-34 | with danger enabled there is, for any party that can board, a run of the whole ropeway in which it waits |
| Waiting.NobodyWaitsIff | src/ipc/sync.c:19-34 | no tourist ever waits, in any run, if and only if danger is disabled or nobody can board |
| Diversion.MidnightDivertsHolder | src/processes/lower_worker.c:205-232 | when the day starts at 00:00 and danger is enabled there is, for any party that can board, a run of the whole ropeway in which the lock holder acknowledges itself |
| Diversion.NeverDivertedIff | src/processes/lower_worker.c:190-232 | the lock holder is never diverted into acknowledging, in any run of the whole ropeway, if and only if the day does not start at 00:00, or danger is disabled, or nobody can board |
| EmergencyTheorems.WaitersAreCovered | src/ipc/sync.c:19-56 | emergency-clear permits, waiters and captured permits add up to the tourists registered and not passed; when a release is done, permits issued cover everyone registered before that initiator's clear |
| EmergencyTheorems.EmergencyLength | src/processes/lower_worker.c:75-84 | every tenure of the lock, and every interval between dangers of one worker, lasts at least the danger duration on the published clock |
| EmergencyTheorems.EmergencyEndsOnTime | src/processes/lower_worker.c:205-215 | a worker can detect danger again, and the initiator at its check sets about ending the emergency, exactly from the moment on at which the duration has passed on the published clock |
| EmergencyTheorems.WaitsOnlyForTheOther | src/common/worker_emergency.c:136-143 | a worker in the protocol is held up only where it acknowledges and READY has not come, or has asked and the answer has not come |
| Tenures.TenureRunning | src/processes/lower_worker.c:205-212 | when the lock is about to be released, the running time since it was acquired and the staleness of the clock at that moment take more than the danger duration less one millisecond |
| Tenures.DangersRunning | src/processes/lower_worker.c:75-84 | so do the running time between two dangers of one worker and the staleness of the clock at the first |
| ShortTenures.ShortTenure | src/processes/lower_worker.c:205-212 | with danger enabled there is, for any party that can board, a run of the whole ropeway with a tenure that takes no running time at all |
| ShortTenures.SecondDanger | src/processes/lower_worker.c:75-84 | and one in which the lower worker boards it twice and detects two dangers with no running time between them |
| ShortTenures.TenuresLastIff | src/processes/lower_worker.c:205-212 | every tenure lasts the danger duration in running time, in every run, if and only if danger is disabled, or nobody can board, or the duration is zero |
| ShortTenures.DangersLastIff | src/processes/lower_worker.c:75-84 | any two dangers of one worker are the danger duration apart in running time, in every run, under exactly the same condition |
| EmergencyLimits.HandshakeStrands | src/processes/lower_worker.c:190-232 | with danger enabled there is, for any party that can board, a run of the whole ropeway after which the emergency is over, the lock is free and the lower worker waits in a second acknowledgement |
| EmergencyLimits.StrandedUntilDanger | src/common/worker_emergency.c:118-146 | in every continuation of the whole ropeway it waits, with emergency_stop raised, until the upper worker detects a new danger |
| EmergencyLimits.NeverStrandsIff | src/common/worker_emergency.c:118-146 | the lower worker is never stranded so, in any run of the whole ropeway, if and only if danger is disabled or nobody can board |
| EmergencyLimits.StopDoesNotLast | src/common/worker_emergency.c:163-169 | with danger enabled there is, for any party that can board, a run of the whole ropeway in which an initiator waits for its duration with emergency_stop cleared by a late acknowledgement of the emergency before |
| EmergencyLimits.StopLastsIff | src/common/worker_emergency.c:163-169 | emergency_stop stays raised while an initiator waits for its duration, in every run of the whole ropeway, if and only if danger is disabled or nobody can board |
| Clock.TimeServer.SigTstp | src/processes/time_server.c:50-61 | the first stop records the time and disarms the handler; a stop while disarmed changes nothing |
| Clock.TimeServer.SigCont | src/processes/time_server.c:71-78 | a continue is noted and rearms the stop handler |
| Clock.TimeServer.Resume | src/processes/time_server.c:106-127 | the pause is added to the offset once, when a continue has been noted and a pause is in force |
| Clock.TimeServer.Update | src/processes/time_server.c:137-165 | what is published is the truncated simulated time of the elapsed time less offset and current pause |
| ClockTheorems.ServerAgrees | src/processes/time_server.c:50-127 | over every history the handler is installed exactly while the process runs, the pause flag is up exactly while a pause is unsettled, and offset and pause start account for everything not counted, all told from the events alone |
| ClockTheorems.TickPublishesCounted | src/processes/time_server.c:137-165 | a tick publishes the day's start plus the acceleration times running time less lag plus overtaken pauses; the clamp at zero is never needed |
| ClockTheorems.ExactIffPrompt | src/processes/time_server.c:106-127 | the clock counts exactly the running time at every moment of a history if and only if no time passes between the end of a pause and its settling |
| ClockTheorems.PauseFreeClock | src/processes/time_server.c:137-165 | with pauses settled before the next stop, a tick publishes start plus acceleration times running time less lag, and without lag running time exactly; no tick publishes less than an earlier one |
| ClockTheorems.PausedTickIgnoresNow | src/processes/time_server.c:150-155 | while paused a tick publishes the same whatever time it reads |
| ClockTheorems.StandsStillWhilePaused | src/processes/time_server.c:150-155 | every tick in one unsettled pause publishes the time counted when it began, whatever time has passed |
| ClockTheorems.PublishedGrows | src/processes/time_server.c:160-164 | published time never decreases, with or without overtaking stops |
| ClockTheorems.ExpiredStaysExpired | src/tourist/lifecycle.c:74-83 | a ticket found expired is invalid ever after, single ride tickets included |
| ClockTheorems.OverIffDurationReached | src/core/time_sim.c:55-82 | through both truncations the simulation is over if and only if the time counted at the last tick has reached the configured duration |
| ClockTheorems.TimeInitIsValid | src/core/time_sim.c:27-39 | a valid configuration gives a day that ends after it starts, on a clock that runs forward |
| ClockTheorems.ExactEndOfDay | src/core/time_sim.c:27-45 | after a tick the simulation is over if and only if running time less lag has reached the configured duration, and without lag running time itself |
| ClockTheorems.DailyTicketLastsTheDay | src/processes/cashier.c:47-48 | a daily ticket, whenever sold, is valid if and only if the time counted at the last tick has not reached the configured duration |
| ClockTheorems.TicketsLast | src/processes/cashier.c:31-53 | a timed ticket, whenever sold, is valid if and only if fewer whole minutes have been published since the start of the minute of the sale than its kind allows, t1, t2 or t3; a single ticket if and only if no ride has been made on it |
| ClockTheorems.DayRunsToItsEnd | src/core/time_sim.c:27-45 | the clock shows the configured start as long as no time is counted, and the configured end when the time counted at a tick is the configured duration |
| ClockTheorems.RunningGap | src/processes/time_server.c:159-164 | an interval on the published clock takes that much accelerated running time, but for one millisecond and the staleness of the clock at its beginning |
| StatisticsTheorems.ReportAgreement | src/core/report.c:38-65 | total_rides is the sum by ticket and the sum over reported entries of rides times heads; total_tourists is the sum by ticket and exceeds the reported heads by the parties sold to and not recorded; visitors beyond the table are accounted for separately |
| StatisticsTheorems.TicketRows | src/core/report.c:59-65 | the row of each ticket shows the heads of the visitors sold that ticket, and their rides |
| StatisticsTheorems.ReportDescribesVisitors | src/core/report.c:38-57 | the report lists a visitor if and only if it has recorded its entry and the table has room for it, with its id, ticket, type, VIP flag, kids, entry time and number of rides |
| StatisticsTheorems.FullTableReportsAll | src/core/report.c:38-65 | with an entry for every tourist nothing goes unreported |
| Statistics.SharedStats.CountSale | src/processes/cashier.c:198-204 | a sale adds a party's heads to the total and to its ticket type, and nothing else |
| Statistics.SharedStats.RecordEntry | src/tourist/stats.c:15-38 | writes one entry with no rides and extends the count; an id out of range changes nothing |
| Statistics.SharedStats.UpdateStats | src/tourist/stats.c:46-72 | the loop over kids adds one ride per head to the total and to the ticket type, one ride to the entry |
| RopewayTheorems.PipelineOf | src/tourist/boarding.c:30-38 | every run of the whole ropeway, where emergency_stop is the protocol's own, is a run of the pipeline |
| RopewayTheorems.ProtocolOf | src/common/worker_emergency.c:73-243 | every run of the whole ropeway is a run of the emergency protocol |
| RopewayTheorems.WholeRopeway | src/processes/lower_worker.c:188-329 | in the whole ropeway chairs are conserved, seating is in order of requests, seats are bounded, the handshake is safe and the lock is conserved, all at once |
| RopewayTheorems.WaitersAreTourists | src/ipc/sync.c:19-56 | the tourists standing at the wait are exactly those the permits, waiter count and captured permits account for; one that finds emergency_stop raised at its second look joins them |
| RopewayTheorems.ChairliftStandsStill | src/processes/lower_worker.c:190-233 | as long as each worker holds the lock or acknowledges, over any stretch of a run, no request is served, no chair leaves, nobody is counted at the top and no permit comes back |
| RopewayTheorems.NoDangerNoStop | src/processes/lower_worker.c:65-69 | where danger detection is disabled or nobody can board, emergency_stop is never set, nobody waits, nobody holds the lock and it stays free |
| RopewayTheorems.ReadingNeverBlocks | src/tourist/boarding.c:30-38 | joining the parts blocks no reading of emergency_stop and no event of the clock; a tourist's reading leads to its request just when emergency_stop is clear, the lower worker's to a put-back when it is raised |
| RopewayTheorems.RopewayLive | src/processes/lower_worker.c:188-239 | with danger disabled and no party too large, from every reachable state with a tourist present at most five operations lead to another state of the pipeline |

## Left out

- `src/tourist/main.c`, `src/tourist/boarding.c`, `src/ipc/sync.c`, `src/ipc/sem.c` and `src/common/worker_emergency.c` as methods: they interleave at every operation, so their operations are steps of the state machines; the retry loops of an interrupted wait are the wait itself.
- Liveness of the emergency handshake under further dangers: `EmergencyLimits` shows where it stops without them.
- Deadlock freedom with danger detection enabled: it depends on that handshake.
- PipelineTheorems.ChairConservation: stated under distinct ids of the chairs under way (A3), because without it the tracking table miscounts (`SharedIdMisleads`); `AlwaysConservedIff` says for which configurations chairs are conserved without it.
- EmergencyTheorems.HandshakeSafety: stated for a day that does not start at 00:00 (A2), without which the holder may divert itself; `NeverDivertedIff` says exactly when.
- EmergencyTheorems.EmergencyLength: on the published clock; `Tenures` and `ShortTenures` state what that means in running time.
- ClockTheorems.RunningGap: with every pause settled before the next stop (A4); `PublishedGap` states the same of the time counted without that.
- Clock.TimeServer.SigTstp: the failing `clock_gettime` branches here and in the resumption and the update are not modelled.
- SIGUSR2, SIGTERM, SIGINT, shutdown, the closing flag, and what happens after IPC removal; SIGALRM only as an interrupted receive.
- A departure at shutdown of the parties still pending (`src/processes/lower_worker.c:336-338`).
- Ride times, trail descents, fright, ticket expiry and the random danger draw: any delay and any choice, so the safety results hold whatever they are.
- The departure time of a chair is an arbitrary number; that passengers of one chair read the same one is proved.
- Finite capacity of the message queues, and the maximum value of a semaphore.
- Ticket prices, the cashier's message exchange and its rejection when closing; a sale is one step.
- Process creation, key generation, creating and destroying IPC objects, the startup barrier, configuration parsing, logging, kid and bike threads.
- Floating-point rounding, and memory ordering of the published time.
- Conversion of argument strings to numbers.
