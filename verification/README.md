# When I Off: a verified model

When I Off records a commute on the phone while there is no network, keeps it in a database through a small backend,
learns walking speeds and prediction errors from it, and recommends when to leave. This project models its
behaviour in Dafny and proves properties of the model.

- **The recording pipeline.** The recorder (`RecorderModel`, `RecorderMachine`) turns region, button, GPS and clock
  events into write commands; the outbox (`OutboxModel`, `OutboxQueue`) queues them in lanes, merges, dispatches,
  retries, survives relaunches and cancels trips; the network (`Link`) loses answers and requests, and may still hand
  over a request long after it was reported as lost or a relaunch has forgotten it; the server (`TripServer`) enforces
  its rules on trips, attempts and GPS rows. `RecorderStops`, `RecorderLaws` and `RecorderRuns` say event by event and
  over runs what the recorder does, `OutboxLaws` what the outbox does with each outcome and how long it waits,
  `ServerRules` what the server takes and keeps. `Pipeline` composes them into one machine; `PipelineRuns`,
  `PipelineTrips`, `PipelinePoints`, `PipelineInstants`, `PipelineOrder`, `PipelineCancel`, `PipelineLate` and
  `PipelineStuck` state what holds over all its runs, `OutboxStuck` and `PipelineLimits` where its promises end. The
  proofs rest on an invariant (`Link.Inv`, `Pipeline.SysInv`) whose centre is: what the server has, followed by what is
  queued, means what was recorded (`CommandFold`, `ServerLaws`, `TripViews`).
- **Geofences** (`Geofence`, `GeofenceNames`, `GeofencePlaces`, `GeofenceSync`): a greedy plan within the phone's limit,
  what it means for the places of the routes, and the difference that brings the phone to it.
- **Departure recommendation and pooled statistics** (`Recommend`, `Advices`, `Pooling`).
- **Rolling call metrics** (`Histogram`, `LatencyHistogram`, `CallStore`, `MetricLaws`, `ExternalCallStore`).
- **Route legs** (`RouteLegs`, `LegsAccepted`, `RouteLegService`, `LegRules`), **signal cycles** (`Cycles`) and **timetable files**
  (`LocalTimes`, `Schedules`); `Sorting` and `Basics` are shared.

Code that changes state step by step is a class or a method here (`OutboxQueue.Outbox`, `RecorderMachine.Recorder`,
`LatencyHistograms.LatencyHistogram`, `ExternalCallStores.ExternalCallStore`, `RouteLegServices.RouteLegService`, and
methods with loops elsewhere), proved equal to functions about which the theorems are stated. `dafny verify
dfyconfig.toml` checks everything.

## What is assumed

- Time is whole milliseconds, the grain of the natural keys (OutboxCommand.swift:12-15).
- No two trips of a route leave home at the same millisecond, as docs/API.md:182-185 says (`Pipeline.FreshDeparture`).
- GPS samples have coordinates on the globe (`Pipeline.OnGlobe`). Two trips may sample the same instant; at such
  instants the rows depend on the order of arrival (`TripViews.Shared`).
- The attempt limit of the recorder is at most the server's, and a route has each leg id once (`RecorderRules.Sound`).
- A transient failure tells nothing: the request may have been applied, may be applied later, or never. 401 and 403 come
  from requests that were not and will not be applied; an unreadable body follows a success, that of a create included.
  Every other 4xx is the server's own reply, none comes from something in between, and no request is so malformed that
  it cannot be sent, so `InvalidRequest` is not reported (`Link.MayReport`).
- The distance between places is any function with distance zero from a place to itself; bucket edges of the histogram
  increase strictly; the clock of the call store does not go back; signal cycle rows and routes have distinct ids; the
  phone lists each watched region once.

## What turned out not to hold

- Cancelling can leave the trip on the server if the app is relaunched between sending the create and learning its
  answer: the restored outbox forgot that the create was out. `PipelineCancel.CancelledIsGoneExactlyWhen` is the exact
  condition over all runs; `PipelineLimits.OutboxCannotTell` shows that no check of the outbox can replace it.
- A cancelled trip that is gone can come back, when a create that a relaunch has forgotten, or that was reported as lost,
  reaches the server afterwards: `PipelineLimits.LateCreateRevives`, exactly then: `PipelineLate.ComesBackExactlyWhen`.
- A change or an attempt that was reported as lost can undo a newer one: `PipelineLimits.LateChangeUndoes`;
  `PipelineLate.DrainedStaysExactlyWhen` is the exact condition for a trip that is done. `PipelineRuns.Late` is the set of
  trips of which a request changed the server when it was no longer due; the theorems about what the server holds are
  about the other trips, those about what the outbox does are about all.
- A create whose answer cannot be read is given up. If its trip is still being recorded, what is recorded afterwards is
  never sent and the outbox never wakes for it: `PipelineLimits.GivenUpRunStrands` is a run,
  `PipelineStuck.StuckExactlyWhen`, `PipelineStuck.SleepsExactlyWhen` and `PipelineRuns.LettersExactlyWhen` are the
  exact conditions, `OutboxStuck.StrandedForEver` covers every later sequence of operations.
- Of two trips that sampled the same instant only the one that arrives first keeps it, and loses it for both when it is
  deleted: `ServerLaws.SharedInstantIsLost`; `PipelineInstants.KeptExactlyWhen` says over all runs who keeps it, and
  `PipelinePoints.RowsAreAcceptedSamples` what holds at all other instants.
- A key reused after a cancel in flight locks its lane: `PipelineLimits.ReusedKeyLocks`;
  `OutboxStuck.DeleteStuckExactlyWhen` is the exact condition. Such a reuse is outside the runs, which use a departure
  once.
- The recommendation takes the latest vehicle on average, which can miss a chain that works:
  `Recommend.ChoiceCanMissAChain`; `Recommend.OneLegIsBestExactlyWhen` and `Recommend.BestExactlyWhen` say for which
  vehicles it cannot.
- A vehicle with zero spread, and only such a one, is stated as never caught: `Recommend.CaughtExactlyWhen`. The floors
  on the spread in lookup.py (lines 108, 156 and 159) keep such vehicles out of the candidates it resolves.
- The client does not sort the signal rows down to the id as the analytics does and relies on the order in which the
  server sends them, in which both always agree (`Cycles.TwinsPickTheSame`); in any order they would agree if and only
  if all rows in force have the same cycle and red (`Cycles.AnyOrderExactlyWhen`).

## Model

| member | source | states |
|---|---|---|
| PipelineRuns.EveryRunCanComplete | ios/WhenIOffRecorder/Sources/WhenIOffRecorder/Outbox.swift:198-334 | After any run of recorder, outbox, network and server from a fresh install, with requests that land after their failure was reported or after a relaunch, sending, answering and resuming can go on until only commands of given-up trips are queued; then, for every other key at once of which nothing landed late, the server holds exactly what the recorded commands mean applied once each in order (points at shared instants apart); for a cancelled trip whose create no relaunch interrupted that is nothing |
| PipelineRuns.DrainedMeansRecorded | ios/WhenIOffRecorder/Sources/WhenIOffRecorder/Outbox.swift:154-277 | Exactly-once meaning from at-least-once sending: in every run, once nothing of a trip is queued that was neither cancelled nor given up, and no request of it changed the server when it was no longer due, its record on the server and its GPS rows (points at shared instants apart) equal the fold of the recorded commands |
| PipelineLate.DrainedStaysExactlyWhen | ios/WhenIOffRecorder/Sources/WhenIOffRecorder/Outbox.swift:247-277 | What a forgotten change or attempt does that lands when its trip is done: over every run, the record stays as recorded if and only if the record says already what the request writes, or the server refuses it, or the row it names is gone |
| PipelinePoints.RowsAreAcceptedSamples | ios/WhenIOffRecorder/Sources/WhenIOffRecorder/Recorder.swift:511-535 | From the location service to the database: in every run, once such a trip is over and nothing of it is queued, its rows apart from instants that another trip sampled are exactly its accepted samples, the first of each instant: none lost, none made up, none of another trip |
| PipelineInstants.KeptExactlyWhen | backend/src/main/kotlin/com/kangsiwoo/whenioff/trip/application/GpsTraceService.kt:20-36 | Every instant, shared or not: over every run the server's row at it is a given point of a given trip if and only if an upload brought that point for that trip while the instant was free and the trip was not deleted since; so the trip whose upload lands first keeps it until it is deleted |
| PipelineRuns.NothingIsRefused | ios/WhenIOffRecorder/Sources/WhenIOffRecorder/Recorder.swift:167-174 | Over every interleaving of events, sends, lost answers, retries, merges, relaunches and late arrivals no request that somebody waits for is refused, except the repeated delete of a trip that is gone (404), unless a forgotten request of its trip landed late; and every dead letter is of such a trip or of one whose create got an unreadable answer |
| PipelineRuns.LettersExactlyWhen | ios/WhenIOffRecorder/Sources/WhenIOffRecorder/Outbox.swift:256-291 | In every run there are dead letters if and only if, since they were last cleared, a create was answered with something unreadable or a refusal was reported; and a refusal is reported only of a trip of which a forgotten request landed late |
| PipelineRuns.GivenUpStaysBare | ios/WhenIOffRecorder/Sources/WhenIOffRecorder/Outbox.swift:114-117 | In every run a trip whose create got an unreadable answer, and of which nothing landed late, stays on the server as the create left it; the server holds what was recorded for it if and only if that is no more than the create |
| PipelineStuck.StuckExactlyWhen | ios/WhenIOffRecorder/Sources/WhenIOffRecorder/Outbox.swift:285-291 | In every run commands of a given-up trip are queued if and only if something was recorded for it after it was given up and it was not cancelled since |
| PipelineStuck.SleepsExactlyWhen | ios/WhenIOffRecorder/Sources/WhenIOffRecorder/Outbox.swift:198-243 | No lost wake-up, exactly: in every reachable state with nothing paused and nothing in flight, the outbox neither dispatches nor names a later time at which it does if and only if every queued command was recorded for a trip after its create got an unreadable answer |
| PipelineStuck.LateGiveUpIsHarmless | ios/WhenIOffRecorder/Sources/WhenIOffRecorder/Outbox.swift:114-117 | An unreadable answer that comes when its trip is no longer being recorded never leaves a command stuck |
| PipelineRuns.NoLostWakeUp | ios/WhenIOffRecorder/Sources/WhenIOffRecorder/Outbox.swift:198-243 | The same by what is queued: the outbox goes on if and only if some queued command is of a trip that was not given up; otherwise it never sends again on its own and never asks to be woken |
| PipelineRuns.StuckIsVisible | ios/WhenIOffRecorder/Sources/WhenIOffRecorder/Outbox.swift:222-237 | Which queued commands are stuck can be read off the outbox: those of trips without an id and without a queued create |
| PipelineOrder.CommandsInOrder | ios/WhenIOffRecorder/Sources/WhenIOffRecorder/Recorder.swift:167-174 | Over every run, for every trip: its first command, uploads included, is its create and no other is; after its arrival only points are uploaded; after its cancellation nothing comes |
| PipelineOrder.NothingAfterTheEnd | ios/WhenIOffRecorder/Sources/WhenIOffRecorder/Recorder.swift:459-491 | Over every run: after the step in which a trip ends, by arrival, time-out, abandonment or cancellation, no step records a command for it and it does not come back |
| PipelineRuns.EveryCommandIsAcceptable | ios/WhenIOffRecorder/Sources/WhenIOffRecorder/Recorder.swift:167-222 | Whatever the events and their times, each create, change and attempt meets a record, made of everything recorded before it, on which the server accepts it |
| PipelineRuns.EveryRecordIsLegal | ios/WhenIOffRecorder/Sources/WhenIOffRecorder/Recorder.swift:226-470 | The record of every trip obeys all range and order rules at every moment: at most the limit of attempts, stop arrivals on first attempts only, departures in order, alighting after departure, all times within the trip |
| PipelineRuns.LanesAreSerial | ios/WhenIOffRecorder/Sources/WhenIOffRecorder/Outbox.swift:195-220 | In every reachable state at most one entry of a lane is in flight and it is the oldest of the lane; a delete is in flight only when no other command of its trip is queued |
| PipelineRuns.CanDrain | ios/WhenIOffRecorder/Sources/WhenIOffRecorder/Outbox.swift:198-277 | From every state that satisfies the invariant everything but commands of given-up trips can be sent off by sending, delivering, answering and resuming alone, without changing what was recorded |
| PipelineCancel.CancelledIsGoneExactlyWhen | ios/WhenIOffRecorder/Sources/WhenIOffRecorder/Outbox.swift:307-334 | In every run with a cancellation, once nothing of the trip is queued, and as long as nothing of it landed late: record, points and stored id are gone if and only if the create was never given up and, just before the cancellation, the outbox knew the id, or saw that the create had been out, or the server did not have the trip |
| PipelineLate.ComesBackExactlyWhen | ios/WhenIOffRecorder/Sources/WhenIOffRecorder/Outbox.swift:307-334 | Once a trip is over, with nothing of it queued, and gone from the server, then over every continuation, whatever lands late, it comes back if and only if a forgotten create of it reaches the server; it is then bare and stays, as nothing of it is ever queued again |
| PipelineCancel.CancelSeenFromOutbox | ios/WhenIOffRecorder/Sources/WhenIOffRecorder/Outbox.swift:316-334 | The part the outbox can check: with the id known or the create seen to have been out the trip will be gone; otherwise its create is queued as never sent, and the trip can stay only if a relaunch fell while the create was on its way |
| Pipeline.StepKeepsInv | ios/WhenIOffRecorder/Sources/WhenIOffRecorder/Recorder.swift:202-222 | Every step of the whole machine keeps the invariant that ties queue, ids, requests in the air, server rows, recorder state and the recorded history together |
| PipelineTrips.SamplesConserved | ios/WhenIOffRecorder/Sources/WhenIOffRecorder/Recorder.swift:511-535 | Over every run, for a trip not cancelled, the points put in for upload followed by those still buffered are exactly the accepted samples, in order |
| PipelineTrips.BufferBelowBatch | ios/WhenIOffRecorder/Sources/WhenIOffRecorder/Recorder.swift:511-535 | Over every run the buffered samples stay below the batch size |
| PipelineTrips.BatchesConcat | ios/WhenIOffRecorder/Sources/WhenIOffRecorder/Outbox.swift:154-167 | Cutting an upload into batches appends entries of 1 to 500 points each whose points concatenate to the upload |
| PipelineTrips.EndedTripStaysSilent | ios/WhenIOffRecorder/Sources/WhenIOffRecorder/Recorder.swift:459-491 | Once a trip is not the one being recorded, no step records a command for it and no step brings it back |
| PipelineTrips.ScreenAgrees | ios/WhenIOffRecorder/Sources/WhenIOffRecorder/Recorder.swift:316-489 | Over every run the shown prompts are exactly the waiting legs with their attempt numbers, location updates are on exactly while a trip is recorded, and leg phases have the shape done, then at most one waiting or riding, then not started |
| PipelineTrips.ButtonActsExactlyWhen | ios/WhenIOffRecorder/Sources/WhenIOffRecorder/Recorder.swift:397-420 | Over every run, for every leg and every attempt number, a prompt's button records its answer if the prompt with that number is on screen, or if the leg is the next to start and the number is 1, and otherwise changes and sends nothing |
| PipelineLimits.OutboxCannotTell | ios/WhenIOffRecorder/Sources/WhenIOffRecorder/Outbox.swift:139-144 | For every key two runs leave the outbox in the same state before and after a cancellation; in one the server never had the trip, in the other it keeps it |
| PipelineLimits.LateCreateRevives | ios/WhenIOffRecorder/Sources/WhenIOffRecorder/Outbox.swift:139-144 | For every key: the app is relaunched while the create is on its way, the trip is cancelled and gone; then the create reaches the server and the trip is there |
| PipelineLimits.LateChangeUndoes | ios/WhenIOffRecorder/Sources/WhenIOffRecorder/Outbox.swift:247-277 | For every key: a change of the departure is reported as lost, a newer one takes its place and is delivered; then the lost one reaches the server and undoes the newer |
| PipelineLimits.GivenUpRunStrands | ios/WhenIOffRecorder/Sources/WhenIOffRecorder/Outbox.swift:114-117 | For every key a run in which the create gets an unreadable answer and the trip then arrives: there are dead letters, the arrival is queued, nothing is paused or on its way, and nothing is ever sent or woken for |
| PipelineLimits.ReusedKeyLocks | ios/WhenIOffRecorder/Sources/WhenIOffRecorder/Outbox.swift:204-213 | A key reused after a cancel in flight locks its lane: no sequence of operations short of cancelling the second trip ever sends anything of the lane |
| OutboxStuck.StrandedForEver | ios/WhenIOffRecorder/Sources/WhenIOffRecorder/Outbox.swift:222-237 | A trip without an id, without a queued create and with nothing on its way stays so under every sequence of puts, cancels, picks, answers, resumes and relaunches short of a new create, and no entry of it is ever ready |
| OutboxStuck.GivingUpStrands | ios/WhenIOffRecorder/Sources/WhenIOffRecorder/Outbox.swift:268-291 | Giving up a create for any reason leaves its trip in that state, with nothing queued |
| OutboxStuck.DeleteStuckExactlyWhen | ios/WhenIOffRecorder/Sources/WhenIOffRecorder/Outbox.swift:204-214 | A lane headed by a delete, with nothing of it on its way, is stuck under every sequence of operations short of another cancel if and only if the id is unknown or another command waits behind the delete; otherwise sending and delivering gets the delete away |
| LinkSubmit.SubmitKeepsInv | ios/WhenIOffRecorder/Sources/WhenIOffRecorder/Outbox.swift:154-190 | Putting in a command, merged into the lane tail or appended or cut into batches, keeps the outbox, network and server invariant |
| LinkNetwork.SendKeepsInv | ios/WhenIOffRecorder/Sources/WhenIOffRecorder/Outbox.swift:198-220 | Dispatching keeps that invariant |
| LinkServe.ArriveKeepsInv | backend/src/main/kotlin/com/kangsiwoo/whenioff/trip/application/CommuteTripService.kt:57-156 | A request that reaches the server while somebody waits for it is accepted or is a delete of a trip already gone, unless another of its trip landed late, and the invariant is kept although the answer may still be lost |
| LinkServe.LandKeepsInv | ios/WhenIOffRecorder/Sources/WhenIOffRecorder/Outbox.swift:247-277 | A request whose failure was reported, or that a relaunch has forgotten, may reach the server at any later time: the invariant is kept, with the full meaning of its trip if the outbox would still send that very request, and with what the outbox alone can see of it otherwise; every other trip keeps all |
| LinkLate.LateCreateIsAbsorbedExactlyWhen | backend/src/main/kotlin/com/kangsiwoo/whenioff/trip/application/CommuteTripService.kt:57-83 | A create that lands again changes nothing if and only if the server has the trip with the departure of its key: not once the trip is gone, and not once its departure was moved |
| LinkNetwork.AnswerKeepsInv | ios/WhenIOffRecorder/Sources/WhenIOffRecorder/Outbox.swift:247-285 | Every outcome the network can report, including failures of requests that were applied or will be, keeps the invariant |
| LinkGiveUp.AbandonKeepsInv | ios/WhenIOffRecorder/Sources/WhenIOffRecorder/Outbox.swift:268-291 | Giving up a create whose answer cannot be read keeps it: its trip is stranded, every other trip keeps what it has |
| LinkNetwork.RestartKeepsInv | ios/WhenIOffRecorder/Sources/WhenIOffRecorder/Outbox.swift:139-144 | A relaunch keeps the invariant: in-flight marks are cleared, and what was on its way may still land |
| LinkCancel.CancelKeepsInv | ios/WhenIOffRecorder/Sources/WhenIOffRecorder/Outbox.swift:307-334 | Discarding a trip at any moment keeps the invariant |
| LinkCancel.CancelledMeans | ios/WhenIOffRecorder/Sources/WhenIOffRecorder/Outbox.swift:307-334 | What is left of a discarded trip in the queue is still, command by command, acceptable to the server |
| ServerLaws.UpsertIsIdempotent | backend/src/main/kotlin/com/kangsiwoo/whenioff/trip/application/CommuteTripService.kt:129-156 | Upserting the same fields again changes nothing |
| ServerLaws.UpsertMergeLaw | ios/WhenIOffRecorder/Sources/WhenIOffRecorder/OutboxCommand.swift:95-109 | The merged upsert does what the two did in turn, also when the older one had landed |
| ServerLaws.PatchMergeLaw | ios/WhenIOffRecorder/Sources/WhenIOffRecorder/OutboxCommand.swift:112-117 | The same for merged changes of a trip |
| ServerLaws.UploadKeepsFirst | backend/src/main/kotlin/com/kangsiwoo/whenioff/trip/application/GpsTraceService.kt:20-36 | At an instant the first point stays: a free instant takes the first point of the batch, a taken one keeps its row whichever trip it is of, and a resent batch adds nothing |
| ServerLaws.SharedInstantIsLost | backend/src/main/kotlin/com/kangsiwoo/whenioff/trip/application/GpsTraceService.kt:20-36 | Two trips that sampled one instant: both uploads are accepted, the later point is lost, and deleting the first trip takes the instant from both |
| CommandFold.ChainMerged | ios/WhenIOffRecorder/Sources/WhenIOffRecorder/Outbox.swift:176-190 | Replacing the last command of a lane by an acceptable merge, with only commands of other lanes behind it, keeps the queue acceptable at every step |
| CommandFold.ChainReplayed | ios/WhenIOffRecorder/Sources/WhenIOffRecorder/Outbox.swift:256-277 | After a queued command has landed once, with only commands of other lanes ahead of it, the queue is still acceptable at every step |
| OutboxQueue.Outbox.Enqueue | ios/WhenIOffRecorder/Sources/WhenIOffRecorder/Outbox.swift:154-190 | The new state is the model's and is saved; an empty upload changes nothing |
| OutboxQueue.Outbox.Next | ios/WhenIOffRecorder/Sources/WhenIOffRecorder/Outbox.swift:198-220 | The scan over passed lanes and deleting trips dispatches exactly the first ready entry, and saves when it dispatched |
| OutboxQueue.Outbox.NextWake | ios/WhenIOffRecorder/Sources/WhenIOffRecorder/Outbox.swift:239-243 | The earliest retry time of an entry not in flight |
| OutboxQueue.Outbox.Complete | ios/WhenIOffRecorder/Sources/WhenIOffRecorder/Outbox.swift:247-294 | The new state is the model's and is saved; `OutboxLaws` says what each outcome means: retried, paused, settled or given up |
| OutboxLaws.PassingFailure | ios/WhenIOffRecorder/Sources/WhenIOffRecorder/Outbox.swift:95-100 | After a failure that may pass the entry stays in its place, tried once more often, and may leave again no later than the longest delay from now: after the lesser of the first delay and the longest one the first time; nothing else changes |
| OutboxLaws.WaitsDouble | ios/WhenIOffRecorder/Sources/WhenIOffRecorder/Outbox.swift:95-100 | Each further such failure waits the lesser of the longest delay and twice the wait before, up to the thirty-first; from then on the wait stays |
| OutboxLaws.DefaultWaits | ios/WhenIOffRecorder/Sources/WhenIOffRecorder/Outbox.swift:88-93 | With the delays in use: 5 s, 10 s, and so on, and 15 minutes from the ninth failure on |
| OutboxLaws.WaitsAreShort | ios/WhenIOffRecorder/Sources/WhenIOffRecorder/Outbox.swift:88-100 | Over every sequence of operations: an entry that waits has had a failure that may pass, and may leave again no later than the longest delay after the last one |
| OutboxLaws.ForbiddenPauses | ios/WhenIOffRecorder/Sources/WhenIOffRecorder/Outbox.swift:102-113 | 401 and 403 pause the outbox and leave the entry its failures and its delay |
| OutboxLaws.PausedExactlyWhen | ios/WhenIOffRecorder/Sources/WhenIOffRecorder/Outbox.swift:198-243 | Of all operations only such a failure pauses the outbox, and only resuming makes it go on |
| OutboxLaws.SettledLeaves | ios/WhenIOffRecorder/Sources/WhenIOffRecorder/Outbox.swift:247-285 | What was delivered leaves the queue, and so does a delete of what is gone and a write whose answer could not be read; a create's answer brings the trip's id and a delete takes it away |
| OutboxLaws.HopelessIsReported | ios/WhenIOffRecorder/Sources/WhenIOffRecorder/Outbox.swift:268-294 | Nothing is given up in silence: what cannot succeed leaves with a dead letter, with a create everything of its trip as well, each but its deletes with a dead letter and nothing else with one |
| OutboxLaws.PutInExactlyWhen | ios/WhenIOffRecorder/Sources/WhenIOffRecorder/Outbox.swift:154-190 | A command is merged, the newer value winning field by field, exactly when the last entry of its lane has not left and is a change of the same trip or of the same attempt; otherwise it comes last, untried |
| OutboxLaws.UploadIsCut | ios/WhenIOffRecorder/Sources/WhenIOffRecorder/Outbox.swift:154-167 | An upload becomes entries of at most 500 points, all but the last full |
| OutboxLaws.SentExactlyWhen | ios/WhenIOffRecorder/Sources/WhenIOffRecorder/Outbox.swift:198-237 | What leaves is the oldest entry that is first in its lane, waits for no answer and no delay, and has the id it needs, a delete only when nothing else of its trip is left; nothing leaves while paused |
| OutboxLaws.WakesExactlyWhen | ios/WhenIOffRecorder/Sources/WhenIOffRecorder/Outbox.swift:239-243 | The wake-up asked for is the earliest retry that is still to come, and there is none exactly when the outbox is paused or no retry is to come |
| OutboxLaws.CancelledLeaves | ios/WhenIOffRecorder/Sources/WhenIOffRecorder/Outbox.swift:307-334 | Of a cancelled trip there stay what is on its way, a delete, and a create that had left before; a delete is added exactly when there is none and the server may have the trip |
| ServerRules.CreateMeans | backend/src/main/kotlin/com/kangsiwoo/whenioff/trip/application/CommuteTripService.kt:57-91 | A create finds the trip of its route and departure, or makes one without attempts; it is refused exactly when that trip has another date |
| ServerRules.UpdateMeans | backend/src/main/kotlin/com/kangsiwoo/whenioff/trip/application/CommuteTripService.kt:93-107 | A change is taken exactly when the trip is known, its arrival is not before its departure, every attempt still lies between them, and no other trip of the route left then; it changes what it names and no more |
| ServerRules.UpsertMeans | backend/src/main/kotlin/com/kangsiwoo/whenioff/trip/application/CommuteTripService.kt:129-156 | An attempt is taken exactly when its number is one of the leg's or the next, 20 at most, and the leg then contradicts neither the trip nor itself; it changes that attempt only, and in it what the request names |
| ServerRules.UploadMeans | backend/src/main/kotlin/com/kangsiwoo/whenioff/trip/application/GpsTraceService.kt:20-36 | A batch is taken exactly when it has 1 to 500 points in range and its trip is known; each instant keeps its row or gets the first point of the batch, and there are no other rows |
| ServerRules.DeleteMeans | backend/src/main/kotlin/com/kangsiwoo/whenioff/trip/application/CommuteTripService.kt:120-127 | A delete takes the record and the points of the trip and nothing else |
| ServerRules.NoOrderContradicts | backend/src/main/kotlin/com/kangsiwoo/whenioff/trip/application/CommuteTripService.kt:102-106 | Whatever is asked, in whatever order, no record contradicts itself and no two trips of a route left at one instant |
| OutboxQueue.Outbox.Discard | ios/WhenIOffRecorder/Sources/WhenIOffRecorder/Outbox.swift:316-334 | Discarding leads to the model's new state, saved |
| OutboxQueue.Relaunch | ios/WhenIOffRecorder/Sources/WhenIOffRecorder/Outbox.swift:139-144 | A new outbox on the same store starts from the saved state with every in-flight mark cleared |
| RecorderMachine.Recorder.Handle | ios/WhenIOffRecorder/Sources/WhenIOffRecorder/Recorder.swift:202-222 | The mutating recorder does exactly what the model says, effects and new state, for every event |
| RecorderMachine.Recorder.RegionsEntered | ios/WhenIOffRecorder/Sources/WhenIOffRecorder/Recorder.swift:248-280 | Entered regions are handled in the order of origin, stops sorted by leg, destination |
| RecorderMachine.Recorder.AnswerRecorded | ios/WhenIOffRecorder/Sources/WhenIOffRecorder/Recorder.swift:397-457 | An answered prompt writes the attempt, closes earlier legs and moves the leg on as the model says |
| RecorderRuns.TickExactlyWhen | ios/WhenIOffRecorder/Sources/WhenIOffRecorder/Recorder.swift:491-507 | Over every run: a tick ends a trip if and only if `abandonAfterReturnHome` has passed since the first event of this departure that brought the rider back to the origin, with no leg begun since, or `maxTripDuration` since the departure |
| RecorderRuns.DefaultTick | ios/WhenIOffRecorder/Sources/WhenIOffRecorder/Recorder.swift:108-111 | With the policy in use that is half an hour back at the origin or four hours out |
| RecorderRuns.ArrivalExactlyWhen | ios/WhenIOffRecorder/Sources/WhenIOffRecorder/Recorder.swift:459-470 | Over every run: at the destination the arrival is recorded if and only if it is not before the departure and not before any time recorded for the trip so far |
| RecorderRuns.BackOverRuns | ios/WhenIOffRecorder/Sources/WhenIOffRecorder/Recorder.swift:248-257 | Over every run: the time of the return that the recorder keeps is that of the first event since this departure that brought the rider back, and there is none exactly when there was no such event or a leg has begun |
| RecorderRuns.TripEndsExactlyWhen | ios/WhenIOffRecorder/Sources/WhenIOffRecorder/Recorder.swift:457-507 | Only reaching the destination, a cancellation and those ticks end a trip; any other event leaves it under its key and route, forgets the return when a leg or the departure changes, moves the departure only later and before any leg, and never lets the latest time fall behind what is recorded |
| RecorderLaws.TickMeans | ios/WhenIOffRecorder/Sources/WhenIOffRecorder/Recorder.swift:491-507 | Which of the two notes a tick gives that ends a trip, that it records no arrival, hands the buffer over, and in the second case closes every leg, taking who waited to have boarded; any other tick does nothing but hand over a buffer whose first point is old enough |
| RecorderLaws.LeavingStartsExactlyWhen | ios/WhenIOffRecorder/Sources/WhenIOffRecorder/Recorder.swift:226-235 | Leaving an origin without a trip starts one for the route that goes first there, by usual direction at that hour in Seoul and then id, with that day as its date, and asks for confirmation exactly when its direction is unusual |
| RecorderLaws.DepartureMovesExactlyWhen | ios/WhenIOffRecorder/Sources/WhenIOffRecorder/Recorder.swift:236-246 | With a trip, leaving its origin moves the departure exactly when the rider had come back, no leg has begun and it is later; leaving anything else does nothing |
| RecorderLaws.ReachingStartsExactlyWhen | ios/WhenIOffRecorder/Sources/WhenIOffRecorder/Recorder.swift:279-312 | Reaching a first boarding stop without a trip starts one exactly for a route of the usual direction whose quiet time is over, of several the one with the smallest id, and notes that the departure is a guess |
| RecorderLaws.ReachingMeans | ios/WhenIOffRecorder/Sources/WhenIOffRecorder/Recorder.swift:248-392 | Reaching a region with a trip, leg by leg: which leg the rider stands at afterwards, and exactly which attempts, times and notes follow: the time at a boarding stop, the time of alighting unless it is too early, who is taken to have boarded, what was skipped or missed; at the destination the arrival and the end |
| RecorderLaws.CaughtMeans | ios/WhenIOffRecorder/Sources/WhenIOffRecorder/Recorder.swift:396-455 | What the button "caught" records and changes on the leg that waits, or on the next one while nobody waits or rides: the departure unless it is too early, which is noted |
| RecorderLaws.MissedMeans | ios/WhenIOffRecorder/Sources/WhenIOffRecorder/Recorder.swift:396-455 | The same for "missed": the next attempt, whose vehicle may not leave before this one, with its prompt; or the end of the leg when the attempts are used up |
| RecorderLaws.SampleMeans | ios/WhenIOffRecorder/Sources/WhenIOffRecorder/Recorder.swift:511-535 | A sample is kept exactly when its accuracy is known and good enough, as it is but for a speed below zero, and the buffer is handed over exactly when it is full or its first point is old enough |
| RecorderLaws.CancellingMeans | ios/WhenIOffRecorder/Sources/WhenIOffRecorder/Recorder.swift:482-489 | A cancellation of this trip ends it without a command, a note or quiet time; of another trip it does nothing |
| RecorderModel.StopsAreSorted | ios/WhenIOffRecorder/Sources/WhenIOffRecorder/Recorder.swift:256-270 | The stops of the entered regions are handled in order of leg, boarding before alighting |
| RecorderRules.HandleTracks | ios/WhenIOffRecorder/Sources/WhenIOffRecorder/Recorder.swift:167-470 | Every event at any time advances a reference record of the trip by steps the server allows, and the recorder state stays in step with it |
| RecorderFacts.GpsConserved | ios/WhenIOffRecorder/Sources/WhenIOffRecorder/Recorder.swift:511-535 | For every event, uploaded points followed by the buffer equal the old buffer followed by the accepted sample; a cancel hands nothing over |
| RecorderFacts.BufferStaysBelowBatch | ios/WhenIOffRecorder/Sources/WhenIOffRecorder/Recorder.swift:511-535 | The buffer stays below the batch size after every event |
| RecorderFacts.HandleKeepsOrder | ios/WhenIOffRecorder/Sources/WhenIOffRecorder/Recorder.swift:316-395 | Every event keeps the phase shape and attempt number 1 of legs not started |
| RecorderFacts.StaleButtonDoesNothing | ios/WhenIOffRecorder/Sources/WhenIOffRecorder/Recorder.swift:397-420 | Within a trip the button of a leg that is neither waiting nor the next to start, or with another attempt number than the leg has, changes nothing |
| RecorderFacts.LiveButtonRecords | ios/WhenIOffRecorder/Sources/WhenIOffRecorder/Recorder.swift:397-420 | The button of the leg that waits, or of the next to start, with its current number records its answer for that leg and number |
| RecorderFacts.HandleShows | ios/WhenIOffRecorder/Sources/WhenIOffRecorder/Recorder.swift:316-489 | Every event keeps the screen equal to the state: prompts are the waiting legs, location updates run while a trip is recorded |
| Geofence.Plan | ios/WhenIOffRecorder/Sources/WhenIOffRecorder/GeofencePlanner.swift:109-140 | The loop that grows regions and dropped roles in place computes the plan, of which `GeofencePlaces` says what it means for the routes |
| GeofencePlaces.PlanMeans | ios/WhenIOffRecorder/Sources/WhenIOffRecorder/GeofencePlanner.swift:79-140 | For any routes: at most 20 regions and at most the limit, each at the place of its first role and as wide as its widest one, made in order of priority; and every origin, destination, boarding and alighting stop is watched by the first region near its own place, which covers its own radius and was made for no later role, or is left out, with the limit used up by earlier roles and none of their regions near |
| GeofencePlaces.LeftOutLast | ios/WhenIOffRecorder/Sources/WhenIOffRecorder/GeofencePlanner.swift:81-87 | The priorities: an origin is left out only where all regions are of origins; nothing of the route being recorded where another route has a region for anything but its origin; nothing of a usual direction where a route of the other one, not being recorded, has such a region |
| Geofence.EveryCandidateIsPlaced | ios/WhenIOffRecorder/Sources/WhenIOffRecorder/GeofencePlanner.swift:116-140 | At most the limit of regions, centres pairwise further apart than the merge distance, and every candidate is in a region within that distance whose radius covers it, or dropped, which happens only with the regions full and none near |
| Geofence.EveryRoleOnce | ios/WhenIOffRecorder/Sources/WhenIOffRecorder/GeofencePlanner.swift:116-140 | Every role is in exactly one region or dropped |
| GeofenceNames.IdentifierInjective | ios/WhenIOffRecorder/Sources/WhenIOffRecorder/GeofencePlanner.swift:20-31 | Region names differ for different roles |
| GeofenceNames.PlanIsSound | ios/WhenIOffRecorder/Sources/WhenIOffRecorder/GeofencePlanner.swift:43-57 | For all routes the roles of the plan are exactly the candidates' roles, region names differ and lead back to their roles |
| GeofenceSync.Sync | ios/WhenIOffRecorder/Sources/WhenIOffRecorder/GeofencePlanner.swift:174-193 | The loop over the registered regions computes the stops and starts |
| GeofenceSync.SyncMeans | ios/WhenIOffRecorder/Sources/WhenIOffRecorder/GeofencePlanner.swift:174-193 | Stopped are exactly this app's regions that no planned one of their name is close to in place and radius; started, in plan order, exactly the planned ones that no watched region is close to |
| GeofenceSync.SyncConverges | ios/WhenIOffRecorder/Sources/WhenIOffRecorder/GeofencePlanner.swift:174-193 | From any registered regions, stopping then starting leaves this app's regions equal to the plan within tolerance and foreign regions untouched |
| GeofenceSync.AgreeingNeedsNothing | ios/WhenIOffRecorder/Sources/WhenIOffRecorder/GeofencePlanner.swift:174-193 | Where the regions agree with the plan the sync is empty |
| GeofenceSync.PlannedSyncSettles | ios/WhenIOffRecorder/Sources/WhenIOffRecorder/GeofencePlanner.swift:109-193 | The plan of any routes can be synced from any state, and a second sync is empty |
| GeofenceSync.SyncStaysWithin | ios/WhenIOffRecorder/Sources/WhenIOffRecorder/GeofencePlanner.swift:159-193 | No intermediate set exceeds the larger of the initial set and foreign plus plan |
| Recommend.RecommendDeparture | analytics/src/whenioff_analytics/model/recommend.py:71-126 | The reversed loop over the legs computes the recommendation, of which `Advices` says what it means in chances |
| Advices.AdviceMeans | analytics/src/whenioff_analytics/model/recommend.py:71-126 | Said by the distribution function alone: an advice comes with a timeline to the target in which every walk is done in its time with exactly the asked level, and every ride is the first of those that board latest on average among the vehicles that arrive in time with that level, caught with exactly that level, its two chances stated as they are; the probability is their product and the buffer what the timeline keeps in hand; otherwise the ride named has no vehicle likely enough for the timeline of the legs after it |
| Advices.OneWalkIsExact | analytics/src/whenioff_analytics/model/recommend.py:91-96 | Leaving as advised for one walk of any spread makes the target with exactly the asked level |
| Advices.OneRideFailsExactlyWhen | analytics/src/whenioff_analytics/model/recommend.py:97-100 | One ride is found infeasible exactly when every vehicle arrives in time with less than the asked level |
| Recommend.RecommendationIsBest | analytics/src/whenioff_analytics/model/recommend.py:71-126 | Where the latest vehicle on average may also be boarded last, the recommendation fails exactly when no feasible chain of vehicles exists, and otherwise no feasible chain leaves later |
| Recommend.AgreementSuffices | analytics/src/whenioff_analytics/model/recommend.py:95-110 | That condition holds when ordering by mean boarding agrees with ordering by the low boarding quantile |
| Recommend.OneLegIsBestExactlyWhen | analytics/src/whenioff_analytics/model/recommend.py:95-110 | For one leg the condition is exact: the recommendation is best for every target if and only if it holds |
| Recommend.BestExactlyWhen | analytics/src/whenioff_analytics/model/recommend.py:71-126 | For routes of any length: the recommendation is best for every target on every route put together from these legs if and only if the condition holds on each transit leg |
| Recommend.ChoiceCanMissAChain | analytics/src/whenioff_analytics/model/recommend.py:95-110 | Without it the choice can report that no vehicle is feasible although a chain is |
| Recommend.TargetDecomposes | analytics/src/whenioff_analytics/model/recommend.py:71-126 | Target minus departure is the walking means, plus needed minus mean boarding of each vehicle, plus the buffer before rounding |
| Recommend.SuccessIsBounded | analytics/src/whenioff_analytics/model/recommend.py:95-126 | With k vehicles, none exact, the stated probability lies between p to the 2k and p to the k |
| Recommend.CaughtExactlyWhen | analytics/src/whenioff_analytics/model/recommend.py:95-126 | A vehicle that arrives in time is caught with the asked level if and only if its boarding time has any spread, and never otherwise |
| Pooling.PoolIsExact | analytics/src/whenioff_analytics/model/lookup.py:69-87 | Pooling gives exactly the count, mean and sample variance of the concatenated samples; stored deviations of one-sample groups have no effect when there are two samples or more |
| Pooling.GroupingDoesNotMatter | analytics/src/whenioff_analytics/model/lookup.py:69-87 | Neither the order nor the grouping of the same samples matters |
| Pooling.ResolveUsesTheSamples | analytics/src/whenioff_analytics/model/lookup.py:146-160 | The band's own samples decide if there are five, in the first such row, else all samples pooled exactly, else the default; the spread is no less than the floor; which one it is, is an equivalence |
| Pooling.ThinnestInput | analytics/src/whenioff_analytics/model/lookup.py:196-208 | No count without vehicles; otherwise the count of one of the inputs, no more than that of any other, and 0 or at least five |
| Histogram.HistMeans | backend/src/main/kotlin/com/kangsiwoo/whenioff/external/metrics/LatencyHistogram.kt:23-29 | Each count is the number of samples in its bucket, least and greatest are exact |
| Histogram.AddIsConcat | backend/src/main/kotlin/com/kangsiwoo/whenioff/external/metrics/LatencyHistogram.kt:31-38 | Adding histograms is concatenating samples |
| Histogram.PercentileIsClose | backend/src/main/kotlin/com/kangsiwoo/whenioff/external/metrics/LatencyHistogram.kt:44-53 | The percentile reported, a whole millisecond, is within least and greatest, at least the true nearest-rank sample and at most the upper edge of that sample's bucket |
| Histogram.PercentileWithinNinePercent | backend/src/main/kotlin/com/kangsiwoo/whenioff/external/metrics/LatencyHistogram.kt:11-15 | The documented accuracy with the edges in use, eight to a doubling: from 1 ms to 2^17 ms the percentile reported is no less than the true sample and at most 9.06 % above it, to the millisecond; below 1 ms it is at most 1 ms |
| Histogram.EveryRankHasASample | backend/src/main/kotlin/com/kangsiwoo/whenioff/external/metrics/LatencyHistogram.kt:44-53 | A nearest-rank sample exists for every quantile |
| Histogram.OneSample | backend/src/main/kotlin/com/kangsiwoo/whenioff/external/metrics/LatencyHistogram.kt:40-43 | A single sample is reported as it is, to the millisecond |
| LatencyHistograms.LatencyHistogram.Record | backend/src/main/kotlin/com/kangsiwoo/whenioff/external/metrics/LatencyHistogram.kt:23-29 | The mutable histogram records as the model does |
| LatencyHistograms.LatencyHistogram.Add | backend/src/main/kotlin/com/kangsiwoo/whenioff/external/metrics/LatencyHistogram.kt:31-38 | The loop over the counts adds as the model does, also when a histogram is added to itself |
| LatencyHistograms.LatencyHistogram.PercentileMs | backend/src/main/kotlin/com/kangsiwoo/whenioff/external/metrics/LatencyHistogram.kt:44-53 | The running sum finds the bucket of the rank, and the result is rounded to the millisecond |
| ExternalCallStores.ExternalCallStore.Record | backend/src/main/kotlin/com/kangsiwoo/whenioff/external/metrics/ExternalCallStore.kt:89-103 | The store stays equal to the log with the call appended |
| ExternalCallStores.ExternalCallStore.TodayCalls | backend/src/main/kotlin/com/kangsiwoo/whenioff/external/metrics/ExternalCallStore.kt:105-115 | The number returned is the number of the source's calls in the log on this day in Seoul; the store stays equal to the log |
| ExternalCallStores.ExternalCallStore.Snapshot | backend/src/main/kotlin/com/kangsiwoo/whenioff/external/metrics/ExternalCallStore.kt:117-126 | One line per key ever called, in the order of first calls; with the edges in use each line tells of the log's calls of its key on this day in Seoul and in this minute and the 59 before; at most 60 minute buckets per series |
| MetricLaws.LineTells | backend/src/main/kotlin/com/kangsiwoo/whenioff/external/metrics/ExternalCallStore.kt:60-70 | A line counts the calls, the failures and each outcome of exactly those calls, and its percentiles are, to the millisecond, no less than the true ones and at most 9.06 % above, where the true one is the duration that fewer than the share took less than and at least the share no more than |
| MetricLaws.TodayCallsTell | backend/src/main/kotlin/com/kangsiwoo/whenioff/external/metrics/ExternalCallStore.kt:104-114 | The same for the number of today's calls of a source |
| CallStore.RollMeans | backend/src/main/kotlin/com/kangsiwoo/whenioff/external/metrics/ExternalCallStore.kt:129-139 | Rolling forward forgets exactly what left the day and the hour |
| CallStore.RecordMeans | backend/src/main/kotlin/com/kangsiwoo/whenioff/external/metrics/ExternalCallStore.kt:89-103 | Recording in the day and minute buckets is appending to the log |
| CallStore.SumMeans | backend/src/main/kotlin/com/kangsiwoo/whenioff/external/metrics/ExternalCallStore.kt:121-124 | The minute buckets added up are the bucket of all calls of those minutes |
| CallStore.WindowMeans | backend/src/main/kotlin/com/kangsiwoo/whenioff/external/metrics/ExternalCallStore.kt:60-70 | A window states the number of calls, the failures, each outcome that occurred and the percentiles of the calls |
| CallStore.RecordHolds | backend/src/main/kotlin/com/kangsiwoo/whenioff/external/metrics/ExternalCallStore.kt:89-103 | Recording keeps the store equal to the log under a clock that does not go back |
| CallStore.SnapshotMeans | backend/src/main/kotlin/com/kangsiwoo/whenioff/external/metrics/ExternalCallStore.kt:117-126 | Reading a snapshot gives the lines of the log and keeps the store equal to it |
| CallStore.TodayCallsMean | backend/src/main/kotlin/com/kangsiwoo/whenioff/external/metrics/ExternalCallStore.kt:105-115 | The calls of today equal the count in the log |
| RouteLegServices.RouteLegService.ReplaceLegs | backend/src/main/kotlin/com/kangsiwoo/whenioff/route/application/RouteLegService.kt:36-73 | Replaces exactly when the request is acceptable (`LegsAccepted.Acceptable`); then there is a row for each request with just the parts that were sent and no other, numbered from 1, alternating, walks at both ends, each ride on a line and between two stops of the catalog of one mode; otherwise the error says what is so, and the table is unchanged; every leg with measurements keeps its id and type |
| LegsAccepted.AcceptsExactlyWhen | backend/src/main/kotlin/com/kangsiwoo/whenioff/route/application/RouteLegService.kt:36-73 | The server accepts exactly the lists that fill the places 1 to an odd number with walks at the odd ones, whose values are in range, whose walks have both ends and nothing of a ride, whose rides name a line and two different stops of the catalog, all of one mode, and nothing of a walk, whose ids are those of rows and sent once, and which send every measured leg back with its type |
| RouteLegServices.RouteLegService.Rewrite | backend/src/main/kotlin/com/kangsiwoo/whenioff/route/application/RouteLegService.kt:51-71 | Parking, deleting, inserting and moving back, each single row write within UNIQUE and CHECK; an error on the way restores the table |
| RouteLegServices.RouteLegService.Park | backend/src/main/kotlin/com/kangsiwoo/whenioff/route/application/RouteLegService.kt:51-54 | The matched rows are moved to negative places one by one |
| RouteLegServices.RouteLegService.Place | backend/src/main/kotlin/com/kangsiwoo/whenioff/route/application/RouteLegService.kt:58-71 | New rows are inserted and waiting rows moved to their places one by one; ids are distinct, matched requests keep their row |
| RouteLegServices.RouteLegService.MatchNamed | backend/src/main/kotlin/com/kangsiwoo/whenioff/route/application/RouteLegService.kt:154-159 | Succeeds exactly when every id sent is a row of the route and is sent once |
| RouteLegServices.RouteLegService.MatchPlaces | backend/src/main/kotlin/com/kangsiwoo/whenioff/route/application/RouteLegService.kt:160-168 | Requests without id take the row in their place of their type that no request names |
| RouteLegs.TargetsAreRows | backend/src/main/kotlin/com/kangsiwoo/whenioff/route/application/RouteLegService.kt:147-169 | The matching is injective, into the rows of the route |
| RouteLegs.ReplacedIsRoute | backend/src/main/kotlin/com/kangsiwoo/whenioff/route/application/RouteLegService.kt:124-179 | A replaced table is a lawful route and holds every measured leg with its id and type |
| RouteLegs.ParkedIsLawful | backend/src/main/kotlin/com/kangsiwoo/whenioff/route/application/RouteLegService.kt:51-54 | Whichever rows were parked first, the table is lawful in between |
| RouteLegs.PlacingIsLawful | backend/src/main/kotlin/com/kangsiwoo/whenioff/route/application/RouteLegService.kt:58-71 | Whichever rows got their place first, the table is lawful in between |
| RouteLegs.UndisturbedKeeps | backend/src/main/kotlin/com/kangsiwoo/whenioff/route/application/RouteLegService.kt:171-179 | The removed and retyped rows include none with measurements exactly when each such row is sent back with its type |
| RouteLegs.SwappingNeedsParking | backend/src/main/kotlin/com/kangsiwoo/whenioff/route/application/RouteLegService.kt:51-54 | Two legs that swap places cannot be written one after the other without parking |
| LegRules.ValidateLegRequests | desktop/src/legs/legRules.ts:148-233 | The list of problems is exactly what is wrong, problem by problem, and empty exactly when some server state accepts the request |
| LegRules.ClientAgrees | desktop/src/legs/legRules.ts:148-233 | Client rules and server rules agree: nothing is wrong for the client if and only if there are rows, measurements and a catalog with which the server replaces |
| LegRules.CleanCanBeAccepted | desktop/src/legs/legRules.ts:144-147 | A clean request is accepted by a lawful route even if all its legs are measured |
| LegRules.AcceptedIsClean | backend/src/main/kotlin/com/kangsiwoo/whenioff/route/application/RouteLegService.kt:124-230 | Whatever a server accepts is clean for the client |
| LegRules.DraftsReturn | desktop/src/legs/legRules.ts:78-139 | Drafts of proper legs turn into requests for exactly those legs |
| LegRules.SavedAgain | desktop/src/legs/legRules.ts:78-139 | Saving the drafts of a replaced route is accepted whatever is measured, and leaves all rows and ids as they are |
| Cycles.DaysSuffice | desktop/src/signals/cycleRules.ts:143-154 | Comparing neighbours in order of start, day by day, finds nothing exactly when all bands of a day are pairwise apart |
| Cycles.OverlapProblems | desktop/src/signals/cycleRules.ts:143-154 | The loop reports an overlap exactly when two bands of a day overlap |
| Cycles.ValidateCycleRequests | desktop/src/signals/cycleRules.ts:114-156 | The client lists nothing that is not wrong and every problem of a row by itself; the list is empty exactly when nothing is wrong with the rows and no two of a day share a second |
| Cycles.ServerValidate | backend/src/main/kotlin/com/kangsiwoo/whenioff/signal/application/TrafficSignalCycleService.kt:54-98 | The server accepts exactly the same lists, and the problem it names is one |
| Cycles.GoodExactlyWhen | desktop/src/signals/cycleRules.ts:114-156 | The common rule of both sides means: at most 100 rows, cycles of 30 to 300 seconds, red above zero and below the cycle, bands that contain a whole second, and no second of a day in two bands |
| Cycles.ShownMeans | desktop/src/signals/cycleRules.ts:187-205 | What the client shows at a time is the cycle, red and source of a row of that day whose band contains the time, where a user's observation beats an API and both beat an assumption, and an earlier start beats a later one; 120 and 90 seconds where there is none |
| Cycles.UsedMeans | analytics/src/whenioff_analytics/io/signals.py:61-91 | What the analytics uses is such a row as well, of several with the same start the one with the least id |
| Cycles.ServerListMeans | backend/src/main/kotlin/com/kangsiwoo/whenioff/signal/application/TrafficSignalCycleService.kt:113-122 | The server lists all rows by day, start, source and id |
| Cycles.EffectiveIsInForce | desktop/src/signals/cycleRules.ts:187-205 | The row shown contains the time and no other such row has a preferred source, or the same source and an earlier start; none only if no row contains the time |
| Cycles.ResolvedIsFirst | analytics/src/whenioff_analytics/io/signals.py:61-91 | The row used is in force and has the least id among equals |
| Cycles.TwinsPickTheSame | desktop/src/signals/cycleRules.ts:174-205 | For every list the server can send, the client shows the row the analytics uses |
| Cycles.AnyOrderPicksTheSame | desktop/src/signals/cycleRules.ts:174-205 | In any order of the list they agree if all rows in force have the same cycle and red |
| Cycles.OrderCanMatter | desktop/src/signals/cycleRules.ts:174-205 | Otherwise some order of the same rows makes them differ |
| Cycles.AnyOrderExactlyWhen | desktop/src/signals/cycleRules.ts:174-205 | What the client shows is independent of the order of its list if and only if all rows in force have the same cycle and red |
| LocalTimes.FormatReads | desktop/src/schedules/csv.ts:104-121 | What is written for a time reads as that time |
| LocalTimes.ReadsTimes | desktop/src/schedules/csv.ts:104-112 | For any digits: what hours, minutes, seconds and up to nine digits of fraction are read as, and that only times of one day are |
| LocalTimes.FormatIsShort | desktop/src/schedules/csv.ts:113-120 | Seconds are written only where there are some, and the fraction with three, six or nine digits, as few as it needs |
| LocalTimes.ParseIsIdempotent | desktop/src/schedules/csv.ts:104-121 | A canonical text is its own canonical text |
| LocalTimes.CanonicalIsInstant | desktop/src/schedules/csv.ts:104-121 | Two texts have the same canonical text exactly when they are the same moment of the day |
| LocalTimes.TextOrderIsTimeOrder | desktop/src/schedules/csv.ts:284-285 | The order of the sortable texts is the order of the times |
| Schedules.GroupRows | desktop/src/schedules/csv.ts:288-315 | One group per key, listed once and in the order in which the file first names them, with the number of rows, repeated times, distinct times, first and last time of the rows of that key |
| Schedules.Summarize | desktop/src/schedules/csv.ts:288-334 | The departures are the different pairs of key and time, and every other row is a duplicate |
| Schedules.GroupIsTrue | desktop/src/schedules/csv.ts:284-315 | With canonical times, first and last are the earliest and latest moments, and rows count once exactly when of the same moment |

## Left out

- PipelineRuns.DrainedMeansRecorded: says nothing of points at instants that two trips sampled, of which `PipelineInstants.KeptExactlyWhen` speaks, and nothing of trips of which a request landed late.
- PipelineRuns.EveryRunCanComplete: of given-up trips and of trips cancelled after an interrupted create it says nothing; `PipelineRuns.GivenUpStaysBare` and `PipelineCancel.CancelledIsGoneExactlyWhen` do. In the continuation it gives nothing forgotten lands; what that can do is in `PipelineLate`.
- PipelineLate.DrainedStaysExactlyWhen: is about changes and attempts of a trip of which nothing landed late before; once something has, nothing is said of its record on the server.
- LinkLate.LateCreateIsAbsorbedExactlyWhen: otherwise the create makes a row, a second one of the trip if its departure was moved; nothing is said of such a trip's record afterwards.
- PipelineTrips.SamplesConserved: the recorder accepts samples only while a trip is recorded, so uploads without an owner are modelled in the outbox but never recorded.
- Recommend.RecommendationIsBest: needs `Ordered`, which for one given route of several vehicles is sufficient; it is exact for one vehicle, and for all routes built from the same legs.
- Recommend.TargetDecomposes: uses the buffer before it is rounded to seconds.
- Histogram.PercentileIsClose: is about any increasing edges; the edges in use are powers of an eighth root of two as a real number, without floating-point rounding.
- LegRules.ClientAgrees: numbers are unbounded integers and reals; a value that does not fit the server's 32-bit fields is refused there before these checks and is not modelled.
- ExternalCallStores.ExternalCallStore.Record: buckets are values in the map of series; two series sharing one mutable bucket is not something the model can show.
- RouteLegServices.RouteLegService.ReplaceLegs: the caches of lines and stops, entity identity and the exact order in which the persistence layer writes rows are not modelled; `RouteLegs.ParkedIsLawful` and `RouteLegs.PlacingIsLawful` cover every order within the two phases.
- RouteLegServices.RouteLegService.Load: gives the rows in any order; at most one row can fit a request, so the order does not matter.
- Pooling.PoolIsExact: states variances; square roots and floating-point rounding are not modelled.
- PipelineRuns.NothingIsRefused: is about the documented range and order rules; the backend also answers 404 to a create for a route that was deleted (`CommuteTripService.create`) and 400 to an attempt on a leg that is not a transit leg of the trip's route (`transitLegOf`), which deleting or editing the route during a trip can cause.
- PipelineRuns.EveryRecordIsLegal: `scheduledAt` is as recorded; the backend fills an absent one from its own predictions (`fillPredictedSnapshot`), so its row can differ there.
- The server's own additions: recommendations in trip responses, and several users.
- Failures of the outbox's and the recorder's own store writes, and a crash between the two saves: each step and its save are one.
- Texts of dead letters, review notes, prompts and errors; error values keep what they are about.
- The order of the identifiers to stop in a geofence sync: it is a set.
- Distances on the sphere, quantiles and distribution functions of the normal law: given functions with the laws they need.
- Parsing of signal band times and of the other columns of timetable files (line and stop numbers, day types, headers, byte order marks).
- Reading routes, profiles and calibrations from the database, JSON, HTTP, SQL and the user interface.
