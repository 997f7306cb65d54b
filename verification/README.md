# InferSwap: the swap scheduler and its admission ledger

InferSwap runs several model backends on one GPU. One goroutine, the router's event loop,
decides who runs, who is unloaded and when bytes count as free. This project models that loop
together with what it talks to, and proves what it promises over every run:

* the FIFO scheduler: request queue, per-model work counters with the generations that prove a
  backend idle, drain gates with deadlines, and recovery sessions with owners, tokens, joins and
  late results;
* the ledger: byte reservations, markers that wait for a strictly later GPU sample, the eviction
  decision, the admission gate, and the write/confirm/restore update around a recovery result;
* the runtime clients: local states, generations, the one load operation, waiters, and the replies
  to recovery results;
* the messages in flight between them: status reads with the proof they carry, probes with token
  and generation, loads, unloads, reminders.

## How the files fit together

| file | what it holds |
|---|---|
| Types, RuntimeStatus, Admission | vocabulary, the status matrix, 64-bit admission arithmetic |
| Scheduler | every handler of the scheduler as a function on values |
| SchedulerLaws, SchedulerTurns, SchedulerDispatch, SchedulerHandlers, SchedulerRecovery, SchedulerHosts | the scheduler's invariant, why every handler keeps it, and the evidence on which dispatch acts |
| SchedulerPromises, SchedulerFrames | justified answers, what each handler leaves alone |
| Ledger, LedgerLaws | the ledger on values and its laws |
| ClientLoop | one client's loop, on values and in place |
| System, SystemLaws, SystemPromises | the composite of all of them, one event a step; its invariant; what holds in every run |
| SystemJobs, SystemRuns, SystemGate | the jobs across an event; building runs; the admission gate and exactly when it opens again |
| SystemCapacity, SystemFrozen, SystemRounds, SystemOvercommit | what may come to be reserved, and exactly when it stays within the device |
| SystemUnloads, SystemFree, SystemEviction | rounds of eviction; exactly when the free bytes cover what is loaded, and when anything is; how many unloads a request waits for |
| Fifo, Router, EventLoop | the scheduler, the ledger and the loop as objects updated in place, proved equal to the functions |

The classes carry the source's loops, branches and mutual recursion. `Fifo.FIFO` groups the
source's fields as its struct does (work, gates, swap, session, book). Termination of every event is
the `decreases` measure of that recursion: the queue shrinks, or a session begins a probe nobody
made before and returns.

## What the environment is assumed to do

* Request ids are unique and not zero.
* A load or an unload reports once; a handler function is called or given up once.
* One clock, which never goes back, with one reading an event. (The source reads wall time for
  sample freshness and the router's clock for the rest.)
* Client transitions are atomic, and no client moves while the loop handles an event.
* `Reconcile` runs once, at boot, before any request; afterwards only loads started by the
  scheduler call `EnsureReady`, and only unloads call `Stop`.
* `System.Boot` is the moment when the last client has reconciled: some loads found in progress may
  have ended by then, but none has been admitted, because an unreconciled model's bytes are unknown
  (`SystemGate.NothingAdmittedWhileReconciling`).
* The queue has room for at least one request, as its default provides
  (internal/router/scheduler/fifo.go:67-72); the gate is asked only from inside a running load
  (internal/runtime/client.go:437-483).
* The composite's planner adds bytes without wrapping. `Router.DecidesExactly` says when the machine
  does the same, and the methods of `Router.Router` and `EventLoop.RunLoop` what it does otherwise.
* The scheduler's planner is the router itself, so `Decide` and `EvictionFor` agree
  (internal/router/budget.go:15-21); it names one victim, so an unload has one.
* Residual bytes are at most the peak, margins and bounds are not negative
  (internal/config/config.go:307-317, internal/config/config.go:336-378).
* The sample an unload reports is usable and later than the stop, as `sampleAfter` waits for
  (internal/router/base.go:383-399).
* The composite system is the router before shutdown. Shutdown itself is covered for each part.

## Where the code does not do what one would expect

* The sum of reservations can exceed the device: `ensurePeak` raises a model that recovery finds,
  past the gate, and that can be a model ready since boot whose unload failed.
  `SystemOvercommit.ReservationsStayWithinExactly` gives the exact condition on the state after
  boot, for all runs; `SystemOvercommit.TwoUnknownModelsExceed` is a run;
  `LedgerLaws.StaysWithinExactly` is the condition for one event.
* The serial of an admitted load is released only by a load's report. A load begun by the boot
  reconcile has none, so it can shut the gate to every other model. `SystemGate.GateOpensExactly`
  says exactly when this cannot happen, `SystemGate.SecondModelIsShutOut` is a run.
* The prose has a load run only when the free bytes cover all holds (docs/measurements.md:7). The
  code also admits on the device total when all others are at their residual.
  `SystemFree.FreeCoversExactly` gives the exact condition on the state after boot under which the
  prose holds of every load granted in any run; `SystemFree.SecondLoadsOnAFullDevice` is a run in
  which a load is granted with nothing free.
* A model whose backend was unloading at boot stays stopping and counts at its peak until it is
  loaded itself, and recovery never asks about it. `SystemFree.LoadsAreGrantedExactly` says exactly
  when a router can still come to load anything; `SystemFree.TwoStoppingAreNeverLoaded` is a boot
  after which it never does.
* The replies busy and stale, for which the router and the scheduler have branches, cannot occur
  before shutdown (`SystemPromises.NoResultIsStale`). The branches are modelled and proved all the
  same.

## Model

| member | source | states |
|---|---|---|
| `SystemPromises.EveryRunIsSafe` | internal/router/base.go:162-216 | In every state of every run from boot, whatever the order of events and of delayed messages: the scheduler waits for exactly the ledger's markers and never for none; one probe in flight, one a request and model; late results welcome only while nothing was started since; one load or unload in flight, with quiet victims; an idle router whose head is not waiting for its own model's calls has a drain armed and a reminder outstanding that is due in time; only stopped models marked; calls within the limit, queue within maxQ; every admitted request queued, answered or cancelled exactly once; service in the order of admission |
| `SystemLaws.Always` | internal/router/base.go:162-216 | The invariant that couples scheduler, ledger, clients and messages in flight holds after every run |
| `SystemLaws.Keeps` | internal/router/base.go:162-216 | Every single event keeps that invariant, and what it starts it starts on the evidence of dispatch, read while it was handled |
| `SystemPromises.JobsStartOnEvidence` | internal/router/scheduler/recover.go:67-122 | In every run, whatever event starts a load or unload: the head it is for is not ready, and either its own load is in flight, or nothing waits for a sample and every model in doubt has reported back to that very request |
| `SystemLaws.BootHolds` | cmd/inferswap/main.go:41 | It holds once every client has reconciled at boot, whatever its backend reported |
| `SystemPromises.SchedulerAndLedgerAgree` | internal/router/scheduler/recover.go:67-122 | In a recover or sample phase the head of the queue owns a live session whose list of samples is the ledger's set of markers, and a sample phase has one to wait for |
| `SystemPromises.WaitEndsExactly` | internal/router/scheduler/recover.go:328-384 | Over every event, a wait for samples ends if and only if its request leaves the queue, a sample cannot be used, or a sample clears the last marker |
| `SystemPromises.DispatchResumesAtTheLastMarker` | internal/router/base.go:234-254 | A usable sample leaves the wait, or, clearing the last marker, ends it with exactly one dispatch on the ledger it left |
| `SystemPromises.NoLostWakeUp` | internal/router/scheduler/fifo.go:327-354 | In every reachable state, an idle router whose head has room for a call of its own model has a drain armed, and a reminder outstanding due no later than the end of any closed gate's drain |
| `SystemPromises.EvictionRound` | internal/router/base.go:256-268 | The report of an unload is a round of eviction: the victim is stopped, the ledger is that of a confirmed unload seen by a later sample, and the planner decides on it for the head |
| `SystemPromises.AnyReportOrder` | internal/router/base.go:243-253 | The order in which the marker map is walked makes no difference to the resulting state |
| `SchedulerRecovery.ClearMarkersOrder` | internal/router/scheduler/recover.go:368-377 | Telling the scheduler of cleared markers one at a time is taking them all off and dispatching once, if the last one went |
| `SystemPromises.OnlyStoppedModelsAreLowered` | internal/router/budget.go:251-257 | Across every event a reservation stays, and falls only to the residual, only on a later sample, and only for a model whose client is stopped with no operation in flight |
| `SystemPromises.ResolvedOnlyWhenProvenIdle` | internal/router/scheduler/fifo.go:195-211 | The idle proof: unresolved work is forgotten only on a zero-active report whose status read began after every call granted to the model had ended or been given up here, with none granted since |
| `SystemPromises.FailedUnloadsStick` | internal/router/scheduler/fifo.go:218-241 | A model whose unload failed for another reason than draining stays blocked until a recovery finds it ready and idle or a sample clears its marker |
| `SystemPromises.NoResultIsStale` | internal/router/recover.go:133-154 | Before shutdown the client applies every believable result that comes back: it is never busy, and never of another generation |
| `SystemLaws.ResultsAreApplied` | internal/runtime/client.go:309-324 | The same from the invariant: a model being asked about has no operation in flight and still the captured generation |
| `SystemPromises.OneProbe` | internal/router/scheduler/recover.go:193-207 | At most one probe is in flight in the whole router |
| `SystemPromises.ProbesPerRequestBounded` | internal/router/scheduler/recover.go:124-135 | BeginProbe is issued at most once for each request and model, and for known models only, over any cancels, joins and late results; so a request causes no more probes than there are models |
| `SystemPromises.LateOnlyIfNothingStarted` | internal/router/scheduler/recover.go:209-217 | A token is accepted late only if no load, unload or probe was started since its session was dropped |
| `SystemPromises.VictimsAreQuietThroughout` | internal/router/scheduler/fifo.go:484-491 | From its start to its report an unload's victim has no call delivered, served or unresolved, and no other load or unload is in flight |
| `SystemPromises.SlotsAreCalls` | internal/router/scheduler/fifo.go:497-506 | A model's slots are its calls delivered, being served and unresolved, and stay within its limit |
| `SystemPromises.ExactlyOnce` | internal/router/scheduler/fifo.go:114-155 | Every admitted request is queued, answered or cancelled, exactly once, over all runs |
| `SystemPromises.ServiceInOrder` | internal/router/scheduler/fifo.go:367-376 | The requests given service form a subsequence of the admission order; the queue stays within maxQ |
| `SystemPromises.MarkedAreStopped` | internal/router/base.go:256-268 | Only models whose client is stopped with nothing in flight wait for a sample |
| `SystemPromises.LedgerStep` | internal/router/base.go:178-211 | What each event does to the ledger is one of the ledger's own happenings, or nothing |
| `SystemPromises.OthersResolveNothing` | internal/router/base.go:169-214 | No event but a status resolves work, and none but a sample unblocks a failed unload |
| `SystemOvercommit.ReservationsStayWithinExactly` | internal/router/recover.go:197-222 | For every boot and every device: in all runs the reservations stay within the device, less the margin, if and only if the peaks of the models loading, failed or unknown at boot fit together, and besides either those of the ready ones fit with them, or no model that was not ready would fit even with all others unloaded |
| `SystemCapacity.ReservationsStayWithinDevice` | internal/router/budget.go:72-92 | If the peaks of all models ready, loading, failed or unknown at boot fit, so do the reservations in every run, whatever is loaded, unloaded, failed, found by recovery or adopted from a backend |
| `SystemCapacity.BoundedKeeps` | internal/router/base.go:162-216 | Every single event keeps the worst that may come to be reserved within the device; what starts a load has heard of every model the planner may count too low |
| `SystemCapacity.StartedFits` | internal/router/budget.go:72-120 | When a load starts, the peaks of everything that may be on the device, in flight or asked for by recovery fit with it |
| `SystemCapacity.SoundKeeps` | internal/router/scheduler/recover.go:223-300 | A head that has heard of a model which is still in doubt and counted below its peak is being failed or is ready itself |
| `SystemCapacity.HoldKeeps` | internal/router/budget.go:177-257 | A model ready, starting or stopping is held at its peak, if at all, unless its load has yet to report; a marked one is held; an unload's victim is ready until it is stopped |
| `SystemFrozen.NothingMoves` | internal/router/budget.go:23-42 | If no model that was not ready fits beside the residuals of the rest, nothing is ever loaded or unloaded, and only what was loading, failed or unknown at boot is ever held |
| `SystemOvercommit.DoubtsAreRaised` | internal/router/recover.go:197-222 | From every boot some run holds the peaks of all models that were loading, failed or unknown, at once |
| `SystemOvercommit.StakeIsRaised` | internal/router/recover.go:197-222 | And if some model that was not ready fits with the rest unloaded, some run holds those of the ready ones too |
| `SystemRounds.Round` | internal/router/scheduler/fifo.go:218-241 | At rest, a request for a model that needs room has the planner's victim unloaded; if its stop fails, a recovery finds it ready and holds its peak, and the router is at rest again |
| `SystemRuns.DoubtsSettle` | internal/router/scheduler/recover.go:67-122 | At rest, any models in doubt can become ready and held at their peaks, one request and one probe after another, with no call left behind and nothing else changed |
| `SystemOvercommit.TwoUnknownModelsExceed` | internal/router/recover.go:197-207 | Two models of 60 on a device of 100 that could not be read at boot: a run from boot reserves more than 100 |
| `LedgerLaws.StaysWithinExactly` | internal/router/budget.go:72-92 | Whatever happens to a ledger within the device leaves it there if and only if it goes through the gate, or what it adds, read off beforehand, still fits |
| `LedgerLaws.RaisesExactly` | internal/router/recover.go:197-222 | A recovery result changes the reservations exactly when the endpoint was up, the client was not of another generation and the peak was not held: on a failed read and a nonsensical status too; and then it sets the peak |
| `LedgerLaws.HoldMoves` | internal/router/budget.go:240-257 | Across every event a reservation stays, is set to the peak by the gate, a load's report or a recovery, or falls to the residual on evidence |
| `SystemFree.FreeCoversExactly` | internal/router/budget.go:115-140 | For every boot and every device: in all runs the free bytes alone cover all holds whenever the gate grants a load, if and only if no model that was not ready at boot has room with the others unloaded, or those stopping at boot do not fit beside the residuals of the rest, or no model that has room needs a byte. Otherwise some run has a load granted with nothing free |
| `SystemFree.LoadsAreGrantedExactly` | internal/router/budget.go:72-120 | For every boot and every device: some run has the gate grant a load if and only if some model that was not ready at boot has room with the others unloaded, and those stopping at boot fit beside the residuals of the rest |
| `SystemFree.MakesRoom` | internal/router/budget.go:23-42 | At rest with everything accounted for, any model that has room can come to be granted its load: the ready ones are unloaded as the planner picks them, those stopping since boot are loaded, fail and are found unloaded |
| `SystemFree.SecondLoadsOnAFullDevice` | internal/router/budget.go:115-140 | Concretely: two models of 60 on a device of 100, the first ready at boot; the second is granted its load while nothing is reported free |
| `SystemFree.TwoStoppingAreNeverLoaded` | internal/runtime/client.go:668-669 | Concretely: two models of which either fits alone, both being unloaded by their backends at boot; no run has a load granted |
| `SystemUnloads.UnloadRound` | internal/router/base.go:256-268 | At rest, a request for a model that needs room can have the planner's victim unloaded and held at its residual on a later sample, with nothing else changed and the router at rest again |
| `SystemUnloads.DoubtUnloads` | internal/router/scheduler/recover.go:266-300 | At rest, a model in doubt can be found unloaded and, on a later sample, be held at its residual, with nothing else changed |
| `SystemUnloads.LoadRoundFails` | internal/router/scheduler/fifo.go:253-277 | At rest, a load that may start can fail: its request is answered and its model in doubt, with nothing else changed |
| `SystemEviction.EvictionEnds` | internal/router/scheduler/fifo.go:218-251 | Over every run: while the head is being made room for, its load has started once as many unloads have reported as there were others ready or being unloaded, whatever else happens in between: requests behind it, calls, status reads, results, samples good and bad, time. Excluded are only that the head leaves, that its model's own load ends, that a stop fails, that the unload's report brings a stale sample or one of another size, and that a status read finds a ready model active that has yet to be unloaded |
| `SystemEviction.ReportGoesOn` | internal/router/base.go:256-268 | The report of the unload starts the head's load, or has the next ready model unloaded, with one less to do |
| `SystemEviction.RequestIsMadeRoomFor` | internal/router/budget.go:23-42 | From rest, in every run with the same exclusions: the load of a request that has room starts after at most as many unloads as there are ready models |
| `SystemGate.GateOpensExactly` | internal/router/base.go:178-188 | For every boot: in all runs an admission is held by nothing but the one load in flight, if and only if no client was still waiting for its backend's load at boot |
| `SystemGate.IdleGateIsOpen` | internal/router/base.go:178-188 | So without such a client the gate of an idle router is open |
| `SystemGate.BootLoadShutsOut` | internal/runtime/client.go:305-307 | With one, every model stopped at boot can come to ask the gate, fit, and be refused for a load that nobody will report |
| `SystemGate.SecondModelIsShutOut` | internal/runtime/client.go:305-307 | Concretely: two models that fit together, the first being loaded by its backend at boot |
| `SystemGate.SerialReleasedExactly` | internal/router/base.go:178-188 | The serial of an admitted load is released exactly by the report of that model's load |
| `SystemGate.OneLoadAdmitted` | internal/router/budget.go:79-90 | From the admission of one model to that report, over any run, the gate refuses every other model and changes nothing |
| `SystemGate.NothingAdmittedWhileReconciling` | internal/router/budget.go:142-196 | While another model's client has not reconciled the gate refuses every load and changes nothing |
| `SystemJobs.JobsMove` | internal/router/scheduler/fifo.go:291-365 | Outside the clients every event takes its own report and starts at most one load or unload |
| `SchedulerDispatch.DispatchInv` | internal/router/scheduler/fifo.go:291-365 | tryDispatch keeps the scheduler's whole invariant (limits, idle generations, FIFO and tally, gates and reminders, lifecycle, sessions, probes, asked models). It starts a load or unload only for a head that is not ready, with no marker left and every doubtful model already asked about for it, or to join the head's own load; an unload only of victims with no pending, served, unresolved or backend work that have not resisted, with a deadline after now and within the drain time of their gates |
| `SchedulerDispatch.TurnEvidence` | internal/router/scheduler/fifo.go:302-365 | The same evidence for every single pass |
| `SchedulerTurns.TurnInv` | internal/router/scheduler/fifo.go:291-365 | So does every single pass |
| `SchedulerTurns.BeginSessionInv` | internal/router/scheduler/recover.go:67-122 | Starting a session, or joining the probe in flight, keeps it |
| `SchedulerTurns.LiveIsUnseen` | internal/router/scheduler/recover.go:85-101 | A probe in flight is one the next head still has to ask about, so its session joins it instead of asking again |
| `SchedulerTurns.SuspectsAndOrder` | internal/router/scheduler/recover.go:137-191 | What a head still has to ask about is exactly what is in doubt and not asked for it yet |
| `SchedulerTurns.CloseGatesSpec` | internal/router/scheduler/fifo.go:401-411 | Closing gates keeps the time of those already closed |
| `SchedulerTurns.DeadlineSpec` | internal/router/scheduler/fifo.go:413-426 | The deadline is the earliest end among the closed gates, or a full drain from now |
| `SchedulerHandlers.RequestInv` | internal/router/scheduler/fifo.go:114-132 | Admission, refusal at the door and giving up before admission keep the invariant |
| `SchedulerHandlers.CancelInv` | internal/router/scheduler/fifo.go:134-143 | A cancel keeps it, of the head and its session too |
| `SchedulerHandlers.TimeoutInv` | internal/router/scheduler/fifo.go:145-155 | A queue timeout keeps it |
| `SchedulerHandlers.ProxyStartInv` | internal/router/scheduler/fifo.go:157-169 | A delivered call always finds its pending slot, and takes it over |
| `SchedulerHandlers.CancelGrantedInv` | internal/router/scheduler/fifo.go:171-179 | A call given up returns its slot |
| `SchedulerHandlers.ServeDoneInv` | internal/router/scheduler/fifo.go:181-193 | A call that ends keeps its slot as unresolved, and a quiet model records its generation |
| `SchedulerHandlers.StatusInv` | internal/router/scheduler/fifo.go:195-207 | A status keeps the invariant |
| `SchedulerHandlers.BackendDoneInv` | internal/router/scheduler/fifo.go:213-216 | So does the end of backend work |
| `SchedulerHandlers.UnloadDoneInv` | internal/router/scheduler/fifo.go:218-251 | The report of an unload keeps it, failed or not |
| `SchedulerHandlers.SwapDoneInv` | internal/router/scheduler/fifo.go:253-277 | So does the report of a load |
| `SchedulerHandlers.RemindInv` | internal/router/scheduler/fifo.go:279-282 | So does a reminder |
| `SchedulerRecovery.NoteCurrentInv` | internal/router/scheduler/recover.go:223-264 | A result for the running session keeps it, the ledger having set, dropped or left the model's marker |
| `SchedulerRecovery.VerdictMarkers` | internal/router/scheduler/recover.go:266-300 | The session's list of samples follows the ledger's marker of the model, for every class and error |
| `SchedulerRecovery.LateInvKept` | internal/router/scheduler/recover.go:313-326 | A late result keeps it |
| `SchedulerRecovery.DropInv` | internal/router/recover.go:81-86 | A dropped result only frees its place in the book |
| `SchedulerRecovery.FinishInv` | internal/router/scheduler/recover.go:328-352 | The end of the probes keeps it |
| `SchedulerRecovery.FailOwnerInv` | internal/router/scheduler/recover.go:354-366 | Failing the owner keeps it |
| `SchedulerHosts.ClearMarkersInv` | internal/router/scheduler/recover.go:368-377 | Cleared markers keep it |
| `SchedulerHosts.SampleFailedInv` | internal/router/scheduler/recover.go:379-384 | A failed sample keeps it |
| `SchedulerPromises.AnswersAreJustified` | internal/router/scheduler/fifo.go:302-376 | A pass that sends the head away does so while idle, answers it once and for a reason that holds: served because its model is ready with a slot, and delivered unless the caller has gone; a victim's gate closed for the whole drain time; a victim that resisted; or the planner's own refusal. Any other pass answers and serves nobody |
| `SchedulerDispatch.NothingWaitsForNothing` | internal/router/scheduler/fifo.go:327-354 | No lost wake-up: dispatch that ends idle leaves the head waiting for a slot, or for a busy victim whose gate is closed, whose drain has not expired, and for which a reminder is outstanding and due in time |
| `SchedulerDispatch.DispatchMoves` | internal/router/scheduler/fifo.go:291-365 | Dispatch starts at most one load or unload, only from idle, and touches neither served nor unresolved work nor failed unloads |
| `SchedulerPromises.AsksTargetFirst` | internal/router/scheduler/recover.go:180-190 | A session asks about each model in doubt once, the target first and the others by id |
| `SchedulerPromises.DroppedTokenIsWanted` | internal/router/scheduler/recover.go:49-65 | A session whose owner leaves hands its token on as a late one |
| `SchedulerPromises.ShutdownAnswersEveryone` | internal/router/scheduler/fifo.go:284-289 | Shutdown leaves nobody waiting: all admitted are answered or gone, and those queued get its error |
| `SchedulerFrames.NoteDigest` | internal/router/scheduler/recover.go:223-326 | A result settles its own model's work and unblocks its own model, and nothing else |
| `SchedulerFrames.UnloadCalm` | internal/router/scheduler/fifo.go:218-241 | A report of an unload only adds blocked models |
| `Fifo.FIFO.TryDispatch` | internal/router/scheduler/fifo.go:291-365 | In place, with the source's mutual recursion and its measure, it computes the dispatch function: every event ends |
| `Fifo.FIFO.EvictFor` | internal/router/scheduler/fifo.go:330-354 | Its eviction branch: expired drain, busy victim, blocked victim, unload |
| `Fifo.FIFO.GrantHeadNow` | internal/router/scheduler/fifo.go:367-376 | Grants the head, counting it only if it was delivered |
| `Fifo.FIFO.ReopenUnused` | internal/router/scheduler/fifo.go:378-399 | Opens exactly the gates not needed, in any map order |
| `Fifo.FIFO.CloseAll` | internal/router/scheduler/fifo.go:327-329 | The loop over the victims closes their gates |
| `Fifo.FIFO.OpenAll` | internal/router/scheduler/fifo.go:242-244 | The loop over the victims opens their gates |
| `Fifo.FIFO.Deadline` | internal/router/scheduler/fifo.go:413-426 | The loop finds the drain deadline |
| `Fifo.FIFO.Expired` | internal/router/scheduler/fifo.go:428-440 | The loop finds an expired drain, if there is one |
| `Fifo.FIFO.ArmDrainFor` | internal/router/scheduler/fifo.go:442-448 | Asks for one reminder at the deadline |
| `Fifo.FIFO.FailDrainFor` | internal/router/scheduler/fifo.go:450-458 | Opens the gates, fails the head, dispatches again |
| `Fifo.FIFO.AnyBusyNow` | internal/router/scheduler/fifo.go:484-491 | True exactly if a model of the list has pending, served, unresolved or backend work |
| `Fifo.FIFO.constructor` | internal/router/scheduler/fifo.go:65-106 | A new scheduler is idle and empty |
| `Fifo.FIFO.OnRequest` | internal/router/scheduler/fifo.go:114-132 | Unknown model, full queue, caller gone, admitted: in place, the handler RequestInv is about |
| `Fifo.FIFO.OnCancel` | internal/router/scheduler/fifo.go:134-143 | In place, the handler CancelInv is about |
| `Fifo.FIFO.Find` | internal/router/scheduler/fifo.go:135-136 | The first queued request with that id |
| `Fifo.FIFO.OnQueueTimeout` | internal/router/scheduler/fifo.go:145-155 | In place, the handler TimeoutInv is about |
| `Fifo.FIFO.OnProxyStart` | internal/router/scheduler/fifo.go:157-169 | In place, the handler ProxyStartInv is about, with its reply |
| `Fifo.FIFO.OnCancelGranted` | internal/router/scheduler/fifo.go:171-179 | In place, the handler CancelGrantedInv is about |
| `Fifo.FIFO.OnServeDone` | internal/router/scheduler/fifo.go:181-193 | In place, the handler ServeDoneInv is about |
| `Fifo.FIFO.OnStatus` | internal/router/scheduler/fifo.go:195-207 | In place, the handler StatusInv is about |
| `Fifo.FIFO.OnBackendDone` | internal/router/scheduler/fifo.go:213-216 | In place, the handler BackendDoneInv is about |
| `Fifo.FIFO.OnUnloadDone` | internal/router/scheduler/fifo.go:218-251 | In place, the handler UnloadDoneInv is about |
| `Fifo.FIFO.OnSwapDone` | internal/router/scheduler/fifo.go:253-277 | In place, the handler SwapDoneInv is about |
| `Fifo.FIFO.OnRemind` | internal/router/scheduler/fifo.go:279-282 | In place, the handler RemindInv is about |
| `Fifo.FIFO.OnShutdown` | internal/router/scheduler/fifo.go:284-289 | The loop answers everyone queued |
| `Fifo.FIFO.MaybeRecover` | internal/router/scheduler/recover.go:67-122 | True exactly if the head must recover, and then the session is started or joined |
| `Fifo.FIFO.StartSession` | internal/router/scheduler/recover.go:85-122 | The session joins the probe in flight for a model it would ask about, or starts its own |
| `Fifo.FIFO.PlanRecovery` | internal/router/scheduler/recover.go:158-191 | Exactly the models in doubt, the target first and the others by id, and the marked ones |
| `Fifo.FIFO.FilterSeen` | internal/router/scheduler/recover.go:137-148 | The loop drops exactly the models asked about, keeping the order |
| `Fifo.FIFO.LaunchProbeFor` | internal/router/scheduler/recover.go:193-207 | The loop begins the next unchecked probe, or finishes the session |
| `Fifo.FIFO.NoteProbe` | internal/router/scheduler/recover.go:223-264 | In place, the handler NoteCurrentInv and LateInvKept are about |
| `Fifo.FIFO.MarkerCleared` | internal/router/scheduler/recover.go:368-377 | In place, what ClearMarkersOrder and ClearMarkersInv are about |
| `Fifo.FIFO.SampleFailed` | internal/router/scheduler/recover.go:379-384 | In place, the handler SampleFailedInv is about |
| `LedgerLaws.FallsOnlyOnEvidence` | internal/router/budget.go:240-257 | A reservation falls or disappears only on a sample strictly later than a recorded proof of non-residency, and then to the residual |
| `LedgerLaws.ApplyOK` | internal/router/budget.go:72-92 | Every reservation is always a model's peak or its residual |
| `LedgerLaws.MarkersOnlyMoveForward` | internal/router/recover.go:209-222 | Outside an unload's own report, a marker's time never moves back, and a marker goes only on a later sample or an applied ready-idle result |
| `LedgerLaws.RecoveryIsATransaction` | internal/router/recover.go:81-131 | A stale reply leaves the whole ledger as it was; a busy one at most raises that model to its peak; no other model's entry changes |
| `LedgerLaws.NoOverCommit` | internal/router/budget.go:72-120 | Through either arm, an admitted load leaves its peak plus every other hold, and the reservations, within the device less the margin |
| `LedgerLaws.EvictionMakesProgress` | internal/router/budget.go:23-42 | If the target fits beside the others' residuals it is never refused, and is admitted after at most as many unloads as there are ready others, however little is reported free |
| `LedgerLaws.DecideEvicts` | internal/router/budget.go:23-42 | A decision names at most one victim, ready and the oldest, and only when the target is not admissible yet and unloading can help |
| `Ledger.OldestIsFirst` | internal/router/budget.go:198-228 | The victim is the least recently used ready model, ties by id, and there is none only if there is no candidate |
| `Ledger.OldestAnyOrder` | internal/router/budget.go:198-228 | The choice does not depend on the order of the running list |
| `Ledger.TotalTake` | internal/router/budget.go:142-175 | The sum of holds does not depend on the order in which the map is walked |
| `Router.Router.Fits` | internal/router/budget.go:142-153 | The loop over the models in some order gives the answer of the machine's 64-bit arithmetic for that order, for all byte counts a word can hold |
| `Router.Router.FitsIfRest` | internal/router/budget.go:155-175 | The same for the device total, with the target at its peak beside the others at their residual |
| `Router.DecidesExactly` | internal/router/budget.go:23-42 | Wherever no bound added to the whole budget overflows, the machine has one decision in whatever order it walks its maps: the arithmetic one |
| `Router.GrantsExactly` | internal/router/budget.go:72-92 | And the gate one answer |
| `Router.FitsExactly` | internal/router/budget.go:142-153 | Because the wrapping sum over any order decides whether the free bytes cover every hold |
| `Router.RestExactly` | internal/router/budget.go:155-175 | And whether the device covers the target beside the residuals |
| `Router.Router.AllOthersAtResidual` | internal/router/budget.go:122-140 | The loop decides whether every other model is stopped, unmarked and at its residual |
| `Router.Router.Admissible` | internal/router/budget.go:115-120 | Either arm of admission, on those answers |
| `Router.Router.OldestResident` | internal/router/budget.go:198-228 | The search finds the oldest ready model |
| `Router.Router.Decide` | internal/router/budget.go:23-42 | The decision on those answers, for any order of the running list |
| `Router.Router.AdmitLoad` | internal/router/budget.go:72-92 | The gate on those answers, with every refusal |
| `Router.Router.LoadReported` | internal/router/base.go:178-187 | The ledger's part of a load's report |
| `Router.Router.ClearLater` | internal/router/base.go:243-250 | The loop over the markers in any order clears exactly those the sample is later than |
| `Router.Router.ApplyObservation` | internal/router/base.go:234-250 | A usable sample is installed and clears markers; any other one invalidates the last |
| `Router.Router.UnloadReported` | internal/router/base.go:256-264 | Marks the victims at the time of the stop, then observes |
| `Router.Router.OnRecover` | internal/router/recover.go:81-131 | Write, ask, confirm or restore is one transaction, for every reply and for a shutdown that comes before or with it |
| `Router.Router.constructor` | internal/router/base.go:95-125 | A new ledger holds nothing and has no sample |
| `Router.PutBack` | internal/router/recover.go:171-195 | Restoring the one model's entries restores the whole ledger |
| `Router.Router.RaiseToPeak` | internal/router/recover.go:197-207 | Raises a reservation below the peak, and only that |
| `EventLoop.RunLoop.Facts` | internal/router/recover.go:30-46 | What the scheduler reads: states, generations, markers and loads in flight as they are, and the planner's answers as the machine computes them |
| `EventLoop.RunLoop.OnHandler` | internal/router/base.go:170-171 | The branch of a request does the composite's event with what it read; so do the branches below, for all byte counts a word can hold |
| `EventLoop.BranchesAreEvents` | internal/router/base.go:162-216 | The branches that change the ledger first are the composite's events when they read the composite's host |
| `EventLoop.ReadsExactly` | internal/router/recover.go:30-46 | And that is what they read wherever sums stay within 64 bits |
| `EventLoop.RunLoop.OnCancel` | internal/router/base.go:172-173 | The branch of a cancel |
| `EventLoop.RunLoop.OnTimeout` | internal/router/base.go:204-205 | The branch of a queue timeout |
| `EventLoop.RunLoop.OnProxyStart` | internal/router/base.go:193-194 | The branch of a call that starts |
| `EventLoop.RunLoop.OnCancelGranted` | internal/router/base.go:195-196 | The branch of a call given up |
| `EventLoop.RunLoop.OnBackendDone` | internal/router/base.go:202-203 | The branch of finished backend work |
| `EventLoop.RunLoop.OnRemind` | internal/router/base.go:315-328 | The branch of a reminder that fires |
| `EventLoop.RunLoop.TellCleared` | internal/router/base.go:251-253 | The loop over the cleared markers |
| `EventLoop.RunLoop.OnServeDone` | internal/router/base.go:189-192 | Use, then the scheduler, then a status read with the proof held at that moment |
| `EventLoop.RunLoop.OnStatus` | internal/router/base.go:197-201 | The branch of a returned status read |
| `EventLoop.RunLoop.OnAdmit` | internal/router/base.go:206-207 | The branch of the gate |
| `EventLoop.RunLoop.OnSwapDone` | internal/router/base.go:178-188 | The ledger first, then the serial, then the scheduler |
| `EventLoop.RunLoop.OnObserve` | internal/router/base.go:234-254 | A sample: the ledger, then each cleared marker to the scheduler, or the failure |
| `EventLoop.RunLoop.OnUnloadNotice` | internal/router/base.go:256-268 | A confirmed unload: markers, sample, cleared markers, then the scheduler |
| `EventLoop.RunLoop.OnUnloadFailed` | internal/router/base.go:264-267 | A failed unload goes to the scheduler alone |
| `EventLoop.RunLoop.OnRecover` | internal/router/recover.go:81-131 | Mode, ledger, client, and the note to the scheduler |
| `ClientLoop.ClientStep` | internal/runtime/client.go:285-387 | Every event keeps: starting is having the current operation in flight, ready is having a handler, waiters only while something will answer them; the end of an operation or a stop answers all of them |
| `ClientLoop.CallsAreAnsweredOnce` | internal/runtime/client.go:326-357 | Over every run each accepted EnsureReady is answered or waiting, exactly once |
| `ClientLoop.AppliedOnce` | internal/runtime/client.go:309-324 | At most one recovery result captured at a generation is ever applied |
| `ClientLoop.ReconcileKeepsExactly` | internal/runtime/client.go:652-677 | A reconcile keeps the invariant if and only if it neither overtakes an operation nor strands a handler |
| `ClientLoop.ShutdownAnswers` | internal/runtime/client.go:287-294 | Shutdown answers everyone still waiting and takes the handler away |
| `ClientLoop.Loop.NotifyAll` | internal/runtime/client.go:263-271 | Answers every waiter, once |
| `ClientLoop.Loop.Start` | internal/runtime/client.go:273-283 | A new operation with a new generation |
| `ClientLoop.Loop.EnsureReady` | internal/runtime/client.go:326-337 | The branch in place, as on values |
| `ClientLoop.Loop.OpDone` | internal/runtime/client.go:339-357 | The branch in place: a result of another generation is ignored |
| `ClientLoop.Loop.Apply` | internal/runtime/client.go:309-324 | The branch in place, with its acknowledgement |
| `ClientLoop.Loop.StopBegin` | internal/runtime/client.go:359-376 | The first half of a stop |
| `ClientLoop.Loop.StopEnd` | internal/runtime/client.go:377-385 | The second half, which answers waiters with the stop's own result |
| `ClientLoop.Loop.Reconcile` | internal/runtime/client.go:296-307 | The branch in place |
| `ClientLoop.Loop.ParentDone` | internal/runtime/client.go:287-294 | The branch in place |
| `Admission.Fits` | internal/resource/admit.go:35-47 | The wrapping, early-exit loop; if no headroom overflows the whole budget it is the arithmetic statement |
| `Admission.FitsExactBound` | internal/resource/admit.go:35-47 | Loop and arithmetic agree on all lists of bounds up to a cap if and only if the cap added to the budget does not overflow |
| `RuntimeStatus.ClassifiesWhatParses` | internal/runtime/recover.go:71-90 | The parser refuses exactly the statuses of the invalid class and those whose fault the classification does not read, and never both |

## Left out

- HTTP serving, the reverse proxy, body handling, JSON and YAML parsing, prepare commands, NVML, logging and diagnostics (`lastStatus`, `RemoteDiag`, state reasons): input and output around the loop.
- Channels, contexts and goroutines as such: each send to the loop is one event, and a message in flight is an entry of the outbox. The moments between a client's writes of its state, generation and in-flight flag are therefore not observed.
- `waitIdle`, `sampleAfter`, status reads and control calls: their outcomes are free choices of the environment, within the assumptions above.
- Wrap-around of the 64-bit generations, tokens and request ids: they are counted without bound.
- Shutdown of the composite, and the release of models after it (internal/router/base.go:654-711): a race between shutdown and an event is covered for the ledger (`Router.Router.OnRecover`), the queue (`SchedulerPromises.ShutdownAnswersEveryone`) and the client (`ClientLoop.ShutdownAnswers`) one at a time.
- A scheduler without a recovery host or with another planner: the source allows both, the program uses neither.
- Liveness of a slot: a failed or busy status after a serve leaves the work unresolved, so only the safe direction is claimed (internal/router/scheduler/fifo.go:195-205).
- That only the request that caused a failed unload is failed: the source fails whoever is head when the report comes (internal/router/scheduler/fifo.go:230-238).
- The order in which a session visits its models after joining a probe: the source can skip an entry; that everything in doubt is asked about before acting comes from planning again (`SystemPromises.JobsStartOnEvidence`).
- The hand-off of an admitted request to a caller that leaves at the same moment: `OnRequest` takes the outcome as an input.
- The decision tree of `ensureFromStatus` (internal/runtime/client.go:437-483): it would only add easy members. Its outcome and its call of the gate are events of the composite.
- EventLoop.RunLoop.OnRecover: takes the client as a value; the client's own object is `ClientLoop.Loop`.
