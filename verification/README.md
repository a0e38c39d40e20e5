# Intelligent voice framework: verified core

A Dafny model of the stateful parts of the intelligent voice framework, with proofs of what they
promise over whole runs. `dafny verify dfyconfig.toml` checks everything.

| file | what it models |
|---|---|
| `trigger_hal.dfy`, `trigger_rules.dfy`, `trigger_watch.dfy`, `trigger_helper.dfy` | the trigger recognition arbiter against a HAL that may refuse any call, in both builds (`SUPPORT_RECORD_WAKEUP_CONCURRENT` on and off) |
| `timer_queue.dfy`, `timer_mgr.dfy` | the id allocator, the deadline queue and the timer thread |
| `state_manager.dfy` | the table-driven state machine that arms one timer per state |
| `queue_util.dfy`, `task_executor.dfy` | the bounded blocking queue as a monitor, and the executor's worker |
| `huks_aes_adapter.dfy` | segmented authenticated encryption over HUKS |
| `engine_device_manager.dfy` | which wakeup device is active |
| `enroll_callback.dfy` | matching enrolment requests to events |
| `kv_text.dfy` | the `key=value;...` parameter text |

How to read it. Each object the source mutates is a class; each method is one critical section, or a
whole call where a lock is held throughout. Classes are proved against functions and predicates on
values, and the theorems about runs are the methods and lemmas named `Run`, `EveryRun`, `GuardedRun`
and `ExecutorRuns`, which range over every sequence of steps. What the environment decides is a
nondeterministic choice or a parameter: whether a HAL or HUKS call succeeds, whether a thread or an
allocation succeeds, which waiter `notify_one` reaches, when the timer thread runs, how far the clock
moves, what a handler returns. Histories, tickets, stamps, fault counters and the listener's bookkeeping
flags exist only in the model. `flawless` fixes a HAL that refuses nothing, for the runs that must happen.

Assumptions. HAL handles are fresh, nonzero and never reused; a recognition event comes from a
started handle, stops it and is handled atomically (the arbitrary handle is covered by an if-and-only-if).
The clock is monotone. A timer manager has at most 0xffff timers. A state machine is configured before
its first message, and `ResetTimerDelay` is called from handlers. HUKS enciphers a stream, as in
sections 7.1 and 7.2 of NIST SP 800-38D, with arbitrary keystream and tag functions. The pipe listener's
inputs, whether every stream may run beside wakeup, whether any runs and whether whisper is allowed,
are arbitrary booleans.

Where a property fails, the code is kept, a failing run is given, and the exact condition is proved:

- The HAL is left told "stop" while concurrent capture is running when an attach sets `mFirstProc`
  during such capture and it goes on: on a re-attach (`ReattachRun`), but also on a first attach if
  capture begins after the callback is published (`FirstAttachRun`). `Run` says exactly when, and
  `HabitIsExact` exactly which ways of attaching are safe in all event sequences.
- An event for a handle the HAL has given up breaks agreement (`StaleRecognitionRun`, `OnRecognition`),
  and after a failed Stop a genuine one may pair an entry with the wrong data (`StopFailureMisleads`).
- Resetting a timer in place is not always kill-then-set (`ResetInPlaceDiffers`, `ResetInPlaceRefines`).
- `PopLen` beside waiting pushes loses a producer and `Init` on an open queue can overfill it
  (`PopLenLosesWakeup`, `InitOverfills`, `UsageIsExact`). The framework's one use of `PopLen` is beside
  pushes that do not wait (services/intell_voice_engine/server/wakeup/wakeup_source_process.cpp:119,
  170), which `GuardedRun` covers.
- For inputs beyond 2^32 - 64Ki bytes the segmenting loop misses the end: it reads past the input and
  would never leave (`GuardIsExact`, `GuardMissesEnd`).
- Entries that are not plain do not survive the text (`OneEntryRoundTrip`).

## Model

| member | source | states |
|---|---|---|
| `TriggerArbiter.Run` | services/intell_voice_trigger/server/trigger_helper.cpp:195-1232 | Over every run of client requests, DSP events, calls, scenes, hibernation, capture, the separate steps of attaching the pipe listener and pipe changes at any point among them, whatever the HAL refuses: handles no entry knows number at most the failed Stop and Unload calls, and with none failed the HAL holds loaded and started exactly the handles of the LOADED-or-STARTED and STARTED entries; until a Stop fails each of these was issued for the very data of its entry. Plain build, Stop never failing: a STARTED model is requested and there is no call, no capture, no hibernation and the default scene; with no failed call at all these conditions are also enough, except for models recognised and not restarted since. Concurrent-capture build, Stop never failing: nothing is STARTED while capture runs and is not concurrent. Unless a value was lost, the last on/off value sent is on iff capture is concurrent and running and the HAL was not switched off by a first change with capture going on since, and while capture is on in extension mode the last whisper value is the current one unless extension mode began during that capture; which of these exceptions holds is a function of the event sequence, and neither does if nothing is armed and extension mode does not begin during concurrent capture. |
| `TriggerArbiter.Deliver` | services/intell_voice_trigger/server/trigger_helper.cpp:195-1455 | Every event keeps the whole invariant, in any order. Each HAL Start, Stop and Unload it leads to is on a handle in the matching HAL state, since those are preconditions of the HAL methods. |
| `TriggerRules.ConflictIsDisturbance` | services/intell_voice_trigger/server/trigger_helper.cpp:542-568 | IsConflictSceneActive in both builds and all three cases of the concurrent one, against conditions listed one by one. |
| `TriggerRules.TargetsSettle` | services/intell_voice_trigger/server/trigger_helper.cpp:570-606 | Where a pass takes every model, in states: requested and undisturbed runs, any other that ran is stopped and during hibernation unloaded, the rest are left alone. |
| `TriggerRules.ArrangedSettles` | services/intell_voice_trigger/server/trigger_helper.cpp:864-916 | What a round of the table does, in capture flags and model states: entering concurrent capture from non-concurrent starts every LOADED model and no other, capture beginning or ending while concurrent changes none, any other change is a pass. |
| `TriggerWatch.AwakeEntry` | services/intell_voice_trigger/server/trigger_helper.cpp:195-268 | A request or a recognition keeps exactly the right models of the plain build running. |
| `TriggerWatch.AwakeAfterPass` | services/intell_voice_trigger/server/trigger_helper.cpp:570-606 | A pass makes exactly the right models run. |
| `TriggerHal.Runner` | services/intell_voice_trigger/server/trigger_helper.cpp:510-526 | Until a Stop fails a running handle belongs to exactly one entry, which is STARTED. |
| `TriggerWatch.HabitIsExact` | services/intell_voice_trigger/server/trigger_helper.cpp:805-846 | Exact, over all event sequences: the HAL is never misled if and only if those who attach neither set mFirstProc nor begin extension mode while concurrent capture is running. |
| `TriggerWatch.TruthIff` | services/intell_voice_trigger/server/trigger_helper.cpp:1170-1232 | What the HAL was told last is the truth if and only if it is not misled. |
| `TriggerWatch.CarefulIsSafe` | services/intell_voice_trigger/server/trigger_helper.cpp:805-846 | Careful attaching keeps every prefix of every event sequence safe. |
| `TriggerWatch.ArmingMisleads` | services/intell_voice_trigger/server/trigger_helper.cpp:843-845 | An event sequence on which setting mFirstProc during capture misleads the HAL. |
| `TriggerWatch.ExtendingMisleads` | services/intell_voice_trigger/server/trigger_helper.cpp:832-835 | An event sequence on which beginning extension mode during capture does. |
| `TriggerArbiter.ReattachRun` | services/intell_voice_trigger/server/trigger_helper.cpp:805-846 | A run on which attaching again during concurrent capture leaves the HAL last told stop while capture is on. |
| `TriggerArbiter.FirstAttachRun` | services/intell_voice_trigger/server/trigger_helper.cpp:813-845 | A run on which even the first attach does, because capture began between publishing the callback and setting mFirstProc; no whisper value was sent either. |
| `TriggerArbiter.StaleRecognitionRun` | services/intell_voice_trigger/server/trigger_helper.cpp:510-526 | A run on which an event for a handle given up during hibernation makes helper and HAL disagree. |
| `TriggerHal.AgreementIsExact` | services/intell_voice_trigger/server/trigger_helper.cpp:339-485 | With no failed Stop or Unload nothing leaks: loaded and started handles are exactly those of the entries. |
| `TriggerHal.LoadKeeps` | services/intell_voice_trigger/server/trigger_helper.cpp:439-466 | Loading under a fresh handle keeps helper and HAL in agreement. |
| `TriggerHal.StartKeeps` | services/intell_voice_trigger/server/trigger_helper.cpp:367-397 | A LOADED entry has a handle that is loaded and not started in the HAL, and starting it keeps agreement. |
| `TriggerHal.StopKeeps` | services/intell_voice_trigger/server/trigger_helper.cpp:415-437 | A STARTED entry has a handle started in the HAL, and stopping it keeps agreement. |
| `TriggerHal.UnloadKeeps` | services/intell_voice_trigger/server/trigger_helper.cpp:468-485 | A LOADED entry may be unloaded and that keeps agreement. |
| `TriggerHal.UnloadFailKeeps` | services/intell_voice_trigger/server/trigger_helper.cpp:477-484 | A refused Unload still marks the entry unloaded; the leaked handle is paid for by that failure. |
| `TriggerHal.ForgetKeeps` | services/intell_voice_trigger/server/trigger_helper.cpp:339-349 | Forgetting an entry that the HAL still holds leaks exactly one handle, which a failed Stop must pay for. |
| `TriggerHal.RecogniseKeeps` | services/intell_voice_trigger/server/trigger_helper.cpp:510-526 | Marking the entry of a reported handle LOADED keeps agreement if and only if the HAL still holds that handle and, unless a Stop has failed, holds it for the data of that entry. |
| `TriggerHal.RunningHolds` | services/intell_voice_trigger/server/trigger_helper.cpp:510-526 | Until a Stop fails, a running handle is held for the data of the entry that carries it, so a genuine recognition keeps agreement. |
| `TriggerHal.StopFailureMisleads` | services/intell_voice_trigger/server/trigger_helper.cpp:339-349 | After a failed Stop it need not: a concrete sequence of a refused Stop, a refused Load and a recognition ends with an entry LOADED for one model under a handle that holds another. |
| `TriggerHal.FaithfulUpdate` | services/intell_voice_trigger/server/trigger_helper.cpp:339-485 | Rewriting one entry keeps the agreement on data and on what runs, if the entry itself keeps it. |
| `TriggerHal.EraseKeeps` | services/intell_voice_trigger/server/trigger_helper.cpp:251-268 | Dropping an entry leaks its handle only if a failed Stop pays for it. |
| `TriggerArbiter.TriggerHelper.constructor` | services/intell_voice_trigger/server/trigger_helper.h:430-469 | Initial fields satisfy the invariant of both builds. |
| `TriggerArbiter.TriggerHelper.LoadModel` | services/intell_voice_trigger/server/trigger_helper.cpp:439-466 | Exact new map and HAL: nothing for a loaded model, nothing when the call fails, else LOADED under the handle issued. |
| `TriggerArbiter.TriggerHelper.PrepareForRecognition` | services/intell_voice_trigger/server/trigger_helper.cpp:354-365 | Success means connected and at least LOADED with no failure; failure changes no entry. |
| `TriggerArbiter.TriggerHelper.StartRecognition` | services/intell_voice_trigger/server/trigger_helper.cpp:367-397 | Exact new map and HAL: only a LOADED model is started, and a failed call changes no entry. |
| `TriggerArbiter.TriggerHelper.StopRecognition` | services/intell_voice_trigger/server/trigger_helper.cpp:415-437 | Exact new map and HAL: only a STARTED model is stopped; a failed Stop pays for one future leak. |
| `TriggerArbiter.TriggerHelper.UnloadModel` | services/intell_voice_trigger/server/trigger_helper.cpp:468-485 | Exact new map and HAL: a LOADED model becomes NOTLOADED even when the HAL refuses. |
| `TriggerArbiter.TriggerHelper.InitRecognition` | services/intell_voice_trigger/server/trigger_helper.cpp:339-352 | A changed model ends NOTLOADED without callback even after a failed Stop, an unchanged one ends LOADED; no fault means success. |
| `TriggerArbiter.TriggerHelper.Clear` | services/intell_voice_trigger/server/trigger_helper.cpp:164-168 | Exact new entry; agreement survives because a failed Stop was counted. |
| `TriggerArbiter.TriggerHelper.StartGenericRecognition` | services/intell_voice_trigger/server/trigger_helper.cpp:195-231 | Success leaves the model recorded as requested and STARTED iff no conflict is active, and then it fails only if some HAL call failed; a failed request starts nothing but, unless a Stop or Unload failed, is remembered for the next pass; other entries are untouched. |
| `TriggerArbiter.TriggerHelper.StopGenericRecognition` | services/intell_voice_trigger/server/trigger_helper.cpp:233-249 | Exact new map: the request is withdrawn even if the HAL refuses, the callback only if it does not; an unknown uuid changes nothing. |
| `TriggerArbiter.TriggerHelper.UnloadGenericTriggerModel` | services/intell_voice_trigger/server/trigger_helper.cpp:251-268 | A loaded model leaves the map whatever the HAL answers, an unloaded one stays; the invariant is kept. |
| `TriggerArbiter.TriggerHelper.FindByHandle` | services/intell_voice_trigger/server/trigger_helper.cpp:510-526 | Finds the first entry in key order that carries the handle, or proves there is none. |
| `TriggerArbiter.TriggerHelper.OnRecognition` | services/intell_voice_trigger/server/trigger_helper.cpp:510-540 | Exact new state and the callback notified; for an arbitrary handle agreement survives if and only if no entry carries it, or the HAL still holds it and, unless a Stop has failed, for the data of the entry found. |
| `TriggerArbiter.TriggerHelper.OnUpdateAllRecognitionState` | services/intell_voice_trigger/server/trigger_helper.cpp:570-606 | With no failed Stop, and under a conflict even if everything else fails, one pass puts every model where its request, the conditions for wakeup and hibernation want it, so the early return skips no model that needed stopping; on a settled map it issues no HAL call. |
| `TriggerArbiter.TriggerHelper.Redirect` | services/intell_voice_trigger/server/trigger_helper.cpp:583-603 | One model goes to its target unless a call fails, and the pass gives up only when a start could not be prepared. |
| `TriggerArbiter.TriggerHelper.UpdateTwice` | services/intell_voice_trigger/server/trigger_helper.cpp:570-606 | After a faultless pass every model is STARTED iff requested and unconflicted, and a second pass leaves the HAL untouched. |
| `TriggerRules.TargetIsSettled` | services/intell_voice_trigger/server/trigger_helper.cpp:570-606 | The target of a faultless pass leaves nothing for another pass to do. |
| `TriggerRules.PassIsSafe` | services/intell_voice_trigger/server/trigger_helper.cpp:563-606 | What a pass leaves behind meets the promise of either build. |
| `TriggerRules.SafeEntry` | services/intell_voice_trigger/server/trigger_helper.cpp:195-249 | Changing one entry keeps that promise if the entry itself was requested and unconflicted or was already running. |
| `TriggerArbiter.TriggerHelper.OnCallStateUpdated` | services/intell_voice_trigger/server/trigger_helper.cpp:642-664 | The critical section of the handler: exact call flag for every call state; re-arbitrates iff it changed, so a call leaves nothing running; keeps the invariant. |
| `TriggerArbiter.TriggerHelper.OnAudioSceneChange` | services/intell_voice_trigger/server/trigger_helper.cpp:692-702 | The critical section of the handler: exact scene; re-arbitrates iff it changed, so a non-default scene leaves nothing running; keeps the invariant. |
| `TriggerArbiter.TriggerHelper.OnHibernateStateUpdated` | services/intell_voice_trigger/server/trigger_helper.cpp:1447-1455 | Exact hibernation flag; re-arbitrates iff it changed, so hibernation leaves nothing running; keeps the invariant. |
| `TriggerArbiter.TriggerHelper.OnCapturerStateChange` | services/intell_voice_trigger/server/trigger_helper.cpp:1258-1267 | Exact capture flag in the plain build; re-arbitrates iff it changed, so capture leaves nothing running; keeps the invariant. |
| `TriggerArbiter.TriggerHelper.SetParameterForInputPipe` | services/intell_voice_trigger/server/trigger_helper.cpp:281-289 | The value reaches the HAL exactly when it could be connected. |
| `TriggerArbiter.TriggerHelper.ExecuteStateTransition` | services/intell_voice_trigger/server/trigger_helper.cpp:864-916 | For all sixteen table entries: exactly what the HAL is sent, and exactly which models move: re-arbitrated, the given one started if LOADED, or none. |
| `TriggerRules.SentTells` | services/intell_voice_trigger/server/trigger_helper.h:305-347 | For every pair of states and any log, exactly the last on/off value and the last whisper value after one table entry. |
| `TriggerRules.MovedStops` | services/intell_voice_trigger/server/trigger_helper.cpp:864-916 | Under a capture conflict every table entry stops everything, unless the state is the old one. |
| `TriggerRules.ArrangedNext` | services/intell_voice_trigger/server/trigger_helper.cpp:1219-1231 | Running one table entry per model adds up: the whole round equals one arbitration, or one start of every LOADED model, or nothing. |
| `TriggerArbiter.TriggerHelper.TransitionAll` | services/intell_voice_trigger/server/trigger_helper.cpp:1217-1231 | A whole round over any number of models, or none: where every model ends up without faults, that the promise about capture holds whatever faults but Stop, and what the HAL was told last. |
| `TriggerArbiter.TriggerHelper.PublishCallback` | services/intell_voice_trigger/server/trigger_helper.cpp:813-828 | From here on pipe changes arrive; the invariant is kept. |
| `TriggerArbiter.TriggerHelper.ReadAbilities` | services/intell_voice_trigger/server/trigger_helper.cpp:829-842 | Exact flags at any time; extension mode that begins during concurrent capture is recorded as late. |
| `TriggerArbiter.TriggerHelper.ArmFirstChange` | services/intell_voice_trigger/server/trigger_helper.cpp:843-845 | mFirstProc is set at any time and the invariant is kept. |
| `TriggerArbiter.TriggerHelper.OnInputPipeChange` | services/intell_voice_trigger/server/trigger_helper.cpp:1170-1232 | From every state: exact flags and whisper setting, exactly when the HAL becomes and stops being misled, and without faults the state of every model, in terms of the capture flags before and after. |
| `TriggerArbiter.TriggerHelper.StopFirst` | services/intell_voice_trigger/server/trigger_helper.cpp:1178-1181 | The first change after mFirstProc switches the HAL off, which misleads it exactly when concurrent capture is running. |
| `TriggerRules.RoundKeepsTold` | services/intell_voice_trigger/server/trigger_helper.cpp:1209-1231 | A round of the table leaves the HAL knowing what it must and makes good what it was misled about, unless capture stays on. |
| `TimerManager.Run` | utils/timer_mgr.cpp:75-249 | Over every interleaving of clients, clock and timer thread: every successful set is queued, fired, killed or cleared, exactly one of them and for good; nothing fires early; with nonnegative delays deadlines fire in order; the queue is sorted, ids distinct, flags exact; the thread never sleeps past the earliest deadline. |
| `TimerQueue.FullIffAllQueued` | utils/timer_mgr.cpp:116-161 | Every id is taken iff as many timers are queued as there are ids. |
| `TimerQueue.SetTimerFailsIffFull` | utils/timer_mgr.cpp:116-161 | Started and with an observer, setting fails iff exactly the maximum number of timers is queued. |
| `TimerQueue.SetTimerAdds` | utils/timer_mgr.cpp:116-161 | A successful set adds exactly one timer: as asked, due the delay from now, for the right observer, under an id no queued timer has; a failed one changes nothing. |
| `TimerQueue.ResetInPlaceMoves` | utils/timer_mgr.cpp:163-176 | Under the id of the only timer its deadline becomes now plus delay and nothing else changes; under any other id it is refused. |
| `TimerQueue.SetTimerKeeps` | utils/timer_mgr.cpp:116-161 | Setting keeps the queue sorted, ids distinct and flags exact. |
| `TimerQueue.KillTimerKeeps` | utils/timer_mgr.cpp:183-203 | Killing keeps them too, and exactly the timer with that id is gone. |
| `TimerQueue.PopFrontKeeps` | utils/timer_mgr.cpp:232-239 | So does taking the earliest timer off the queue. |
| `TimerQueue.ResetInPlaceRefines` | utils/timer_mgr.cpp:163-181 | For the only queued timer, the in-place reset equals kill-then-set in queue, flags and id if and only if it carries id 0, is set with what it had, and the manager is started. |
| `TimerManager.TimerMgr.Start` | utils/timer_mgr.cpp:75-96 | A manager starts exactly if it was stopped and its thread could be created. |
| `TimerManager.TimerMgr.RequestStop` | utils/timer_mgr.cpp:98-114 | Only a started manager quits; its thread is woken. |
| `TimerManager.TimerMgr.Clear` | utils/timer_mgr.cpp:205-214 | Exact new state; every queued timer becomes cleared and no other fate changes. |
| `TimerQueue.ResetInPlaceDiffers` | utils/timer_mgr.cpp:163-181 | A run of two sets and a kill after which the in-place reset keeps id 1 where kill-then-set gives id 0. |
| `TimerManager.TimerMgr.constructor` | utils/id_allocator.cpp:25-30 | Every id free, nothing queued, nothing recorded; a negative size gives no ids. |
| `TimerManager.TimerMgr.AllocId` | utils/id_allocator.cpp:32-42 | The least free id, or INVALID_ID and no change when none is free. |
| `TimerManager.TimerMgr.ReleaseId` | utils/id_allocator.cpp:44-52 | Exactly that flag is cleared; an id out of range is ignored. |
| `TimerManager.TimerMgr.ClearId` | utils/id_allocator.cpp:54-59 | Every flag is cleared. |
| `TimerManager.TimerMgr.SetTimer` | utils/timer_mgr.cpp:116-161 | Refines the set step and keeps accounting, timeliness and the wakeup bound. |
| `TimerManager.TimerMgr.Enqueue` | utils/timer_mgr.cpp:144-158 | The insertion loop puts the timer behind every earlier deadline; the thread is woken when it must be. |
| `TimerManager.TimerMgr.KillTimer` | utils/timer_mgr.cpp:183-203 | Refines the kill step; the ticket killed is the one queued under that id; the argument becomes INVALID_ID. |
| `TimerManager.TimerMgr.TryResetInPlace` | utils/timer_mgr.cpp:163-176 | Acts iff exactly one timer is queued, and then as the in-place reset. |
| `TimerManager.TimerMgr.ResetTimer` | utils/timer_mgr.cpp:163-181 | Without interference it refines the reset step. |
| `TimerManager.TimerMgr.Step` | utils/timer_mgr.cpp:216-249 | One turn of the thread exits, waits or fires exactly as status, queue and clock say, and a fired timer is due. |
| `StateManager.Run` | utils/state_manager.cpp:34-165 | Over every configuration and every interleaving of handlers and timer thread: at most one timer is queued and it is the one the current state asked for, every other state holds INVALID_ID, the current state is registered with actions, or the unconfigured default, or dead, every timer ever killed was killed while the state that armed it was current, a state other than the first that has a timeout was armed and its timer is queued or has fired, and fired timers were delivered in order and once each. |
| `StateManager.RecordKeeps` | utils/state_manager.cpp:84-165 | One activity more: whatever it killed belonged to the state it began in. |
| `StateManager.MachineResetRefines` | utils/state_manager.cpp:149-165 | As the machine uses it, the in-place reset is kill-then-set, with id 0 both times. |
| `StateManager.SetOnEmpty` | utils/state_manager.cpp:84-105 | Arming on an empty queue succeeds with id 0 whenever the manager is started. |
| `StateManager.ModuleStates.constructor` | utils/state_manager.cpp:34-40 | Starts in the default state, registered without actions, the manager started if its thread could be created. |
| `StateManager.ModuleStates.ForState` | utils/state_manager.cpp:53-67 | A configured state is returned as it is; a new one gets empty actions or, if there is no memory, the machine is dead. |
| `StateManager.ModuleStates.Add` | utils/state_manager.h:115-119 | Exactly that message is added. |
| `StateManager.ModuleStates.WaitUntil` | utils/state_manager.h:127-136 | Exact new timer configuration, and its message is handled. |
| `StateManager.ModuleStates.Interfere` | utils/timer_mgr.cpp:216-249 | Whatever the timer thread does meanwhile, at most the earliest timer leaves the queue and nothing is killed. |
| `StateManager.ModuleStates.Disarm` | utils/state_manager.cpp:84-105 | Killing the id a state holds, stale or not, kills no timer of another state. |
| `StateManager.ModuleStates.Rearm` | utils/state_manager.cpp:84-105 | While the manager is started arming succeeds and the one timer queued is due the configured delay from now. |
| `StateManager.ModuleStates.ResetTimer` | utils/timer_mgr.cpp:163-181 | The three critical sections with the timer thread between any two: still at most the state's own timer, and while started it is queued, due the delay from now. |
| `StateManager.ModuleStates.ResetTimerDelay` | utils/state_manager.cpp:149-165 | Keeps the invariant; while the manager is started no held id changes and a held timer is due its delay from now. |
| `StateManager.ModuleStates.ToState` | utils/state_manager.cpp:84-105 | Both sides have actions; exact new state and id; a timeout of the new state is queued, due its delay from now; only the timer of the state left may be killed. |
| `StateManager.ModuleStates.HandleMsg` | utils/state_manager.cpp:113-147 | Exact result and next state: a failing handler or an unregistered target leaves the current state alone, an unknown message gives -2, a state without actions -1. |
| `StateManager.ModuleStates.OnTimerEvent` | utils/state_manager.cpp:107-111 | The fired timer is handled as a message of its kind, perhaps in a later state; the invariant is kept. |
| `BlockingQueue.EveryRun` | utils/queue_util.h:40-135 | For any number of threads and every run, PopLen and Init at any time included: a waiting consumer means no more queued elements than woken consumers, popped followed by queued is what was accepted, the queue is open with the capacity last given exactly if its last Init is later than its last Uninit and else empty, and once every Uninit has made both notifications nobody waits on a closed queue. |
| `BlockingQueue.ClosedRefuses` | utils/queue_util.h:47-135 | After an Uninit with no Init since, every push and pop, and whatever a thread woken in a wait wanted, is refused. |
| `BlockingQueue.PushAnswers` | utils/queue_util.h:47-78 | A push returns true exactly if the element was accepted, waits exactly if it may and the open queue is full, and else returns false and changes nothing. |
| `BlockingQueue.PopAnswers` | utils/queue_util.h:79-93 | A pop returns the oldest element exactly if the queue is open and not empty, waits exactly if it is open and empty. |
| `BlockingQueue.WakingIsCalling` | utils/queue_util.h:47-112 | A thread woken in a wait does what a call would do then; a timeout matters only where the call would wait. |
| `BlockingQueue.GuardedRun` | utils/queue_util.h:40-135 | If no Init meets an open queue, and PopLen is used only where no push waits, then also: the queue stays within its capacity and, outside an unfinished Uninit, a waiting producer means no more free slots than woken producers. |
| `BlockingQueue.UsageIsExact` | utils/queue_util.h:40-124 | That is exact: of the eight ways of using or not using PopLen, waiting pushes and Init on an open queue, capacity and producers are safe in all runs if and only if Init meets no open queue and PopLen and waiting pushes are not both used. |
| `BlockingQueue.PushNowKeeps` | utils/queue_util.h:47-78 | Appending and notifying one consumer keeps the invariant, one producer having been spent. |
| `BlockingQueue.PopNowKeeps` | utils/queue_util.h:79-93 | Taking the front and notifying one producer keeps the invariant, one consumer having been spent. |
| `BlockingQueue.PushWakeKeeps` | utils/queue_util.h:47-61 | A producer that wakes, for whatever reason, pushes, fails or waits again without losing a wakeup. |
| `BlockingQueue.PopWakeKeeps` | utils/queue_util.h:79-112 | So does a consumer, timeouts included. |
| `BlockingQueue.StepKeeps` | utils/queue_util.h:40-135 | Every critical section keeps consumers, order and shutdown right, and every one but PopLen and Init on an open queue keeps capacity and producers right. |
| `BlockingQueue.QuietKeeps` | utils/queue_util.h:47-124 | Where no push waits none ever will, PopLen has nobody to notify and the capacity holds. |
| `BlockingQueue.PopLenKeeps` | utils/queue_util.h:113-124 | PopLen keeps order and consumers and takes as many elements as there are, up to the limit. |
| `BlockingQueue.InitOverfills` | utils/queue_util.h:40-46 | A run in which Init on an open queue leaves more elements than it has room for. |
| `BlockingQueue.PopLenLosesWakeup` | utils/queue_util.h:113-124 | A run of two waiting pushes after which PopLen leaves a producer waiting beside an empty queue. |
| `BlockingQueue.QueueUtil.Initialise` | utils/queue_util.h:40-46 | Refines Init. |
| `BlockingQueue.QueueUtil.Push` | utils/queue_util.h:47-78 | Refines the push section: refused, blocked, or appended with one consumer notified. |
| `BlockingQueue.QueueUtil.ResumePush` | utils/queue_util.h:51-61 | Refines the far side of its wait. |
| `BlockingQueue.QueueUtil.Pop` | utils/queue_util.h:79-93 | Refines the pop section. |
| `BlockingQueue.QueueUtil.ResumePop` | utils/queue_util.h:84-112 | Refines the far side of its wait, with or without timeout. |
| `BlockingQueue.QueueUtil.TakeMany` | utils/queue_util.h:113-124 | The loop takes exactly the first elements up to the limit, in order; capacity and producers stay right where no push waits. |
| `BlockingQueue.QueueUtil.Close` | utils/queue_util.h:125-132 | Refines the locked part of Uninit, the clearing loop included. |
| `BlockingQueue.QueueUtil.WakeConsumers` | utils/queue_util.h:133-133 | Every waiting consumer is woken. |
| `BlockingQueue.QueueUtil.WakeProducers` | utils/queue_util.h:134-134 | Every waiting producer is woken. |
| `TaskExecution.ExecutorRuns` | utils/task_executor.cpp:23-80 | In every run the tasks executed are a prefix of those accepted, in order and once each; the worker exits only after a StopThread and until then runs next the oldest task left; once every StopThread has made its notifications nobody waits and the worker leaves at its next step. |
| `TaskExecution.MoveKeeps` | utils/task_executor.cpp:35-80 | What the worker took is what it ran plus what it is running, after every step. |
| `TaskExecution.TaskExecutor.constructor` | utils/task_executor.cpp:23-27 | An open queue of the given capacity and no worker. |
| `TaskExecution.TaskExecutor.AddAsyncTask` | utils/task_executor.h:37-44 | Refines a submission. |
| `TaskExecution.TaskExecutor.StartThread` | utils/task_executor.cpp:35-46 | The worker becomes ready, or creating it failed and nothing changed. |
| `TaskExecution.TaskExecutor.PopTask` | utils/task_executor.cpp:63-80 | The loop takes a task, blocks, or leaves when the queue is closed. |
| `TaskExecution.TaskExecutor.ResumeTask` | utils/task_executor.cpp:63-80 | The same after being woken inside its Pop. |
| `TaskExecution.TaskExecutor.FinishTask` | utils/task_executor.cpp:63-80 | The task counts as run, once. |
| `TaskExecution.TaskExecutor.CloseQueue` | utils/task_executor.cpp:48-61 | StopThread closes the queue first. |
| `AeadAdapter.RoundTrip` | utils/huks_aes_adapter.cpp:171-271 | Decrypt gives back what Encrypt took, for every non-empty input up to 2^32 - 64Ki bytes, every keystream and every tag function; it fails only if HUKS does. |
| `AeadAdapter.OpenSeal` | utils/huks_aes_adapter.cpp:203-250 | Opening undoes sealing, in the nonce, ciphertext, tag layout. |
| `AeadAdapter.SealLayout` | utils/huks_aes_adapter.cpp:203-219 | 12 bytes of nonce, the enciphered bytes, 16 bytes of tag, byte for byte. |
| `AeadAdapter.SealOpen` | utils/huks_aes_adapter.cpp:221-271 | Whatever opens is the seal of what it opens to. |
| `AeadAdapter.Encrypt` | utils/huks_aes_adapter.cpp:171-219 | The output is the sealed input; an empty input is an invalid argument; only HUKS failures make it fail. |
| `AeadAdapter.Decrypt` | utils/huks_aes_adapter.cpp:221-271 | Without the key it fails; with it and HUKS willing it succeeds if and only if the buffer opens, and gives what it opens to. |
| `AeadAdapter.UpdateAndFinish` | utils/huks_aes_adapter.cpp:341-398 | The chunks fed are all 64Ki but a last one of 1 to 64Ki, output offsets equal input offsets, the reused capacity stays large enough, no 32-bit sum wraps, and the output is that of one unsegmented call. |
| `AeadAdapter.FeedPiece` | utils/huks_aes_adapter.cpp:357-378 | One full piece is enciphered in place behind the others; it fails only if HUKS does. |
| `AeadAdapter.FinishPiece` | utils/huks_aes_adapter.cpp:380-397 | The last piece and the tag complete the output; decrypting, success means the tag matches. |
| `AeadAdapter.ChunksAre` | utils/huks_aes_adapter.cpp:351-378 | The pieces of an input are its full ones followed by the last. |
| `AeadAdapter.XorConcat` | utils/huks_aes_adapter.cpp:351-378 | Enciphering piece by piece is enciphering the whole. |
| `AeadAdapter.GuardIsExact` | utils/huks_aes_adapter.cpp:351-355 | The loop's 32-bit test for the last piece is right at every offset if and only if the input is at most 2^32 - 64Ki bytes. |
| `AeadAdapter.GuardMissesEnd` | utils/huks_aes_adapter.cpp:351-378 | For a larger input the loop would feed a full piece that reaches past its end, its wrapped offset would return to 0, and in no turn would either exit of the loop be taken. |
| `DeviceSelection.Run` | services/intell_voice_engine/server/base/engine_device_manager.cpp:81-257 | Over every interleaving of requests and detached refreshes: addresses are distinct, devices are in order of latest registration, and with no refresh outstanding the active device is the one on the audio route, else the last registered, else the default. |
| `DeviceSelection.WantedIsUnique` | services/intell_voice_engine/server/base/engine_device_manager.cpp:229-246 | That device is unique. |
| `DeviceSelection.RegisterKeeps` | services/intell_voice_engine/server/base/engine_device_manager.cpp:81-102 | Dropping an address's old entry and appending the new one keeps order, distinctness and the registry. |
| `DeviceSelection.RemoveMacKeeps` | services/intell_voice_engine/server/base/engine_device_manager.cpp:104-124 | So does dropping an address. |
| `DeviceSelection.EngineDeviceManager.constructor` | services/intell_voice_engine/server/base/engine_device_manager.cpp:248-257 | The default device is registered and active. |
| `DeviceSelection.EngineDeviceManager.EraseUnless` | services/intell_voice_engine/server/base/engine_device_manager.cpp:139-153 | The erase-while-iterating loop keeps exactly the devices that pass, in order. |
| `DeviceSelection.EngineDeviceManager.RegisterDevice` | services/intell_voice_engine/server/base/engine_device_manager.cpp:81-102 | Exact registry for valid arguments, -1 and no change otherwise; one more refresh is outstanding. |
| `DeviceSelection.EngineDeviceManager.DeregisterDevice` | services/intell_voice_engine/server/base/engine_device_manager.cpp:104-124 | Exact registry, the service that held the address, one more refresh; an empty address is refused. |
| `DeviceSelection.EngineDeviceManager.RemoveByServiceName` | services/intell_voice_engine/server/base/engine_device_manager.cpp:139-153 | Exactly the service's devices go. |
| `DeviceSelection.EngineDeviceManager.UpdateAudioDevice` | services/intell_voice_engine/server/base/engine_device_manager.cpp:155-167 | Exact audio address; one more refresh. |
| `DeviceSelection.EngineDeviceManager.NotifyCallbacksIfChanged` | services/intell_voice_engine/server/base/engine_device_manager.cpp:207-227 | The active device becomes the wanted one; callbacks run iff it changed. |
| `DeviceSelection.EngineDeviceManager.RefreshWakeupDevice` | services/intell_voice_engine/server/base/engine_device_manager.cpp:229-246 | The search loop finds the wanted device. |
| `EnrollCallbacks.Run` | frameworks/js/napi/enroll_intell_voice_engine_callback_napi.cpp:53-161 | For every interleaving of requests, failures, events and clears, against an account kept from the steps alone: of each kind the requests that ended are the first asked, in order and once each; each is answered as the step that ended it demands, an event's answer carrying that event's id, code and info, an init or commit a success iff the code is 0 and processWork had written no failure, an abort the failure of its kind; the rest waits, and after a clear nothing does. |
| `EnrollCallbacks.EventAnswers` | frameworks/js/napi/enroll_intell_voice_engine_callback_napi.cpp:122-161 | An event concerns requests of its own kind and answers them as demanded. |
| `EnrollCallbacks.AbortAnswers` | frameworks/js/napi/enroll_intell_voice_engine_callback_napi.cpp:85-120 | An abort answers every kind as demanded. |
| `EnrollCallbacks.TallyClear` | frameworks/js/napi/enroll_intell_voice_engine_callback_napi.cpp:91-118 | A clear ends every waiting request of a kind, in order, as aborted. |
| `EnrollCallbacks.TallyEvent` | frameworks/js/napi/enroll_intell_voice_engine_callback_napi.cpp:122-161 | An event ends the oldest waiting request of its kind. |
| `EnrollCallbacks.EnrollCallback.QueueAsyncWork` | frameworks/js/napi/enroll_intell_voice_engine_callback_napi.cpp:53-63 | Exactly that request is queued behind the others of its kind. |
| `EnrollCallbacks.EnrollCallback.OnEvent` | frameworks/js/napi/enroll_intell_voice_engine_callback_napi.cpp:122-161 | The oldest request of the event's kind ends with the event's details and the right result, a failure written earlier standing; with none waiting nothing changes. |
| `EnrollCallbacks.EnrollCallback.ProcessWorkFails` | frameworks/js/napi/enroll_intell_voice_engine_napi.cpp:294-309 | A failing processWork writes the failure of its kind into a request that still waits; the invariant is kept. |
| `EnrollCallbacks.EnrollCallback.Drain` | frameworks/js/napi/enroll_intell_voice_engine_callback_napi.cpp:91-118 | The inner loop ends every request of one kind in order. |
| `EnrollCallbacks.EnrollCallback.ClearAsyncWork` | frameworks/js/napi/enroll_intell_voice_engine_callback_napi.cpp:85-120 | Every waiting request ends, in order, as an abort; the map is empty. |
| `KeyValueText.PrintParse` | utils/intell_voice_util.cpp:99-111 | Every list of plain entries (trimmed, non-empty, key free of = and ;, value free of ;), printed and parsed onto any map, is assigned to it in order: later entries win and values may hold =. |
| `KeyValueText.LaterWins` | utils/intell_voice_util.cpp:99-111 | Of several entries for a key the last one counts. |
| `KeyValueText.OthersKeep` | utils/intell_voice_util.cpp:99-111 | A key without an entry keeps what it had. |
| `KeyValueText.JunkIgnored` | utils/intell_voice_util.cpp:99-111 | A line that cannot be read changes nothing. |
| `KeyValueText.ReadableStored` | utils/intell_voice_util.cpp:99-111 | A line that can is stored over what the lines before it left. |
| `KeyValueText.IsSpace` | utils/string_util.h:52-78 | Exactly code 32 and codes 9 to 13 are trimmed. |
| `KeyValueText.OneEntryRoundTrip` | frameworks/native/intell_voice_manager.cpp:267-267 | The text printed for one entry parses back to exactly that entry if and only if the entry is plain. |
| `KeyValueText.Reparse` | utils/intell_voice_util.cpp:99-111 | The entries any text yields, printed in any order, yield themselves. |
| `KeyValueText.StoredArePlain` | utils/intell_voice_util.cpp:99-111 | Whatever the text, every entry stored is plain. |
| `KeyValueText.StoresUnique` | utils/intell_voice_util.cpp:99-111 | A text determines the map it produces. |
| `KeyValueText.SplitStringToKVPair` | utils/intell_voice_util.cpp:99-111 | Exactly the readable lines are stored in order. |
| `KeyValueText.Split` | utils/string_util.cpp:34-51 | The search loop yields exactly the non-empty pieces between separators. |
| `KeyValueText.TokensSplit` | utils/string_util.cpp:34-51 | Cutting distributes over any occurrence of the separator. |
| `KeyValueText.TokensAreClean` | utils/string_util.cpp:34-51 | No piece is empty or holds the separator. |
| `KeyValueText.JoinRoundTrip` | utils/string_util.cpp:34-51 | Joining then cutting is the identity if and only if every piece is non-empty and free of the separator. |
| `KeyValueText.SplitLineToPair` | utils/string_util.cpp:117-141 | Succeeds if and only if the line reads key = value with both sides non-blank, the key ending at the first equals sign; a line with no usable equals sign leaves the caller's variables alone, any other leaves the two trimmed sides there. |
| `KeyValueText.ReadsUnique` | utils/string_util.cpp:117-141 | A line has at most one reading. |
| `KeyValueText.TrimL` | utils/string_util.h:52-60 | Exactly the leading blanks go. |
| `KeyValueText.TrimR` | utils/string_util.h:63-71 | Exactly the trailing blanks go. |
| `KeyValueText.Trim` | utils/string_util.h:74-78 | Only blanks are stripped and a non-empty result has none at either end. |
| `KeyValueText.TrimUnique` | utils/string_util.h:74-78 | Trimming has one result. |

## Left out

- NAPI, Taihe and IPC code, ashmem, files, databases, JSON and permission checks: foreign calls and I/O.
- Fold, whisper-reload and client `SetParameter` paths of the trigger helper, and `GetConcurrentState` with its allow and deny lists: only their outcomes reach the arbiter.
- Allocation failure of a trigger model entry, and null entries in maps and queues: they would only add early returns.
- TriggerArbiter.TriggerHelper.StartGenericRecognition: in the concurrent-capture build the invariant does not promise that a STARTED model is requested and unconflicted: entering concurrent capture starts any LOADED model.
- Hibernation does not unload every model, only those that were STARTED; that is what `Settles` says.
- VoIP concurrency: the source only ever clears the flag, so in every run it is off (`TriggerArbiter.Run`); the cases with it on are covered by `ConflictIsDisturbance`, which ranges over all situations.
- Detaching the audio engine listener is not modelled; a failed registration is an attach that stops after its first step.
- TriggerArbiter.TriggerHelper.OnCallStateUpdated: the pipe change that the concurrent-capture build makes after releasing the lock is the event `PipeChange`, which may follow at once or later.
- TriggerArbiter.TriggerHelper.OnAudioSceneChange: likewise.
- TriggerArbiter.TriggerHelper.OnInputPipeChange: the log of values sent is only claimed complete while no value was lost to a failed connection.
- TimerManager.TimerMgr.SetTimer: 64-bit overflow of now plus delay is not modelled; order of firing is claimed for nonnegative delays only.
- StateManager.ModuleStates.OnTimerEvent: a timeout already taken off the queue may reach a later state; no claim is made that it does not.
- `FromState` groups and `Del` of the state machine: configuration conveniences.
- Joining an executor's thread, and progress of `AddSyncTask`, which waits even when its push was refused.
- TimerManager.TimerMgr.constructor: more than 0xffff timers are excluded, since ids would reach INVALID_ID.
- StateManager.ModuleStates.Add: configuring after the first message is excluded.
- StateManager.ModuleStates.WaitUntil: likewise.
- StateManager.ModuleStates.ResetTimerDelay: calls from outside a handler are excluded; they would race with the message lock.
- AeadAdapter.UpdateAndFinish: inputs beyond 2^32 - 64Ki bytes are excluded, because the segmenting test wraps there: the call reads past its input and does not end.
- AeadAdapter.RoundTrip: likewise.
- AeadAdapter.Decrypt: likewise, of the payload.
- AeadAdapter.Encrypt: inputs beyond 2^32 - 64Ki bytes of payload are excluded likewise; key parameters and allocation failures count as HUKS failures.
- DeviceSelection.EngineDeviceManager.NotifyCallbacksIfChanged: the callbacks themselves, their order across detached threads and `CountByServiceName` are not modelled.
- TaskExecution.TaskExecutor.StartThread: a second call, which would start a second worker, is excluded.
- Requests rejected before they are queued, for instance for invalid parameters, are not modelled.
- Request contexts of the enrolment callback are numbers; delivery into the JS event loop is the append to `ended`.
- KeyValueText.Split: the 32-bit start position is unbounded here, and an empty separator, on which the source loops for ever, is excluded.
- Engine arbitration, the update controller and history data: outside this core.
