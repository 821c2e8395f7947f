# Kompact, modelled and proved in Dafny

A model of the parts of the Kompact component framework that are hard to get right, with proofs
about every run or every input:

- `Options.dfy`: the option type. `Lifecycle.dfy`: the packed lifecycle word (three flag bits, 61 count bits) and its refinement to a pair.
- `ComponentProtocol.dfy`, `ComponentInvariants.dfy`, `ComponentTheorems.dfy`: the lock-free scheduling
  protocol of a component as an interleaved step relation (enqueuers, pool workers, the dedicated
  thread, wakers, blocking futures, faults, panics and shutdown), its inductive invariant, and the
  safety theorems over all runs. `ExecutionTheorems.dfy`: what one execution takes,
  in which order, and how it is scheduled. `BlockingTheorems.dfy`: what becomes of blocking futures and
  their wake-ups. `OutcomeTheorems.dfy`: the flag that futures and faults leave. `WordTheorems.dfy`: runs of the protocol on the packed word. `WitnessRuns.dfy`: concrete runs.
- `DispatcherLinks.dfy`, `NetworkDispatch.dfy`: the connection machine of the network dispatcher per
  address, and the dispatcher and queue manager objects that refine a family of such links.
- `Supervision.dfy`: the component supervisor with listeners and coordinated shutdown.
- `ConfigTree.dfy`: merging, inserting and looking up configuration.
- `WireBytes.dfy`, `SerdeCodec.dfy`, `SerdeInverse.dfy`, `SerdeBuffers.dfy`, `Utf8Text.dfy`: the binary
  form of the Serde data model.
- `BitFields.dfy`, `PathCodec.dfy`, `MessageFrames.dfy`: header bit fields, actor paths, frame heads and
  the three message encoders. `Separated.dfy`: splitting and joining.

State that the original changes in place is a class here, each method proved against a function
whose laws are the lemmas; the concurrent protocol is a step relation. `dafny verify dfyconfig.toml`
checks everything.

Where the code and its documentation, or an expected law, differ, the model follows the code:

- A stored blocking future and the flag Blocking coincide except in the window after a panic, before
  the flag turns Faulty (`BlockingFlagIffFuture`, `PanicWindowIsReached`).
- Destroyed is not final: it is only checked on entry of an execution, and within one control drain a
  Start after a Kill makes the component Active again (`DestroyedLeftIff`, `KilledComponentRestarts`).
- The transport and address type fields of the path header overlap, so no IPv6 path can be decoded
  (`HeaderAcceptedIff`, `IPv6Refused`). The layout drawn in the documentation of core/src/messaging/framing.rs does not overlap.
- `embed_msg` measures and appends whole chunks. It fails its length assertion on a partly read lease
  and repeats the bytes already read of a chunk reference, which is what `deserialise_chunk_ref` yields
  (`EmbedAgreesIff`, `DecodedRefNotForwarded`).
- Merging tables is not associative (`MergeAssociativeIff` gives the exact condition), and inserting a
  key can change the error kind of another path (`InsertKeepsOtherPaths`).
- A transport-reported ConnectionDropped can strand queued frames (`NeverStrandedIff`, `DropStrandsForGood`).
- The two config lookup routes agree only for non-empty keys without dots (`RoutesAgreeIff`).

## Model

| member | source | states |
|---|---|---|
| `ComponentTheorems.WorkConservation` | core/src/component/actual_component.rs:427-569 | In every state of every run, under every interleaving of any number of enqueuers and executors, the count bits equal queued control events, timeouts, messages and port events, plus announced but unpushed, plus popped but not yet subtracted, plus the stale timeouts discarded and the items lost by the steps of the run so far; the lost items are zero in runs without fault, shutdown or panic |
| `ComponentTheorems.GoneIsTally` | core/src/component/actual_component.rs:385-395 | Stale are exactly the timeouts taken within the limit whose handle was gone, lost exactly what executions had popped when they ended by fault, shutdown or panic, both counted from the steps of the run |
| `ComponentTheorems.NeverUnderflows` | core/src/component/lifecycle.rs:84-103 | No run aborts in `decrement_work`; the only reachable abort is the overflow of the 61 count bits |
| `ComponentTheorems.ThreadNeverUnderflows` | core/src/component/lifecycle.rs:84-103 | One step of one thread: whatever a thread is about to subtract is still contained in the count |
| `ComponentTheorems.NoLostWakeup` | core/src/component/actual_component.rs:403-425 | In every reachable state with flag Active or Passive and a positive count there is a pool task, a thread that will still look at the count or schedule, or, with a dedicated thread, a pending unpark or its exit; runs may block and resume |
| `ComponentTheorems.ExactlyOneToken` | core/src/runtime/scheduler.rs:118-135 | On the pool, in runs in which no handler blocks: exactly one scheduling token while a schedulable component has work, none while it has none, never two, and no two threads hold one |
| `ComponentTheorems.DedicatedLoopNeverPanics` | core/src/dedicated_scheduler.rs:97-126 | No execution returns `AlreadyScheduled`, so the panic of the dedicated loop is unreachable |
| `ComponentTheorems.DedicatedNeverSleepsOnWork` | core/src/dedicated_scheduler.rs:97-130 | A parked dedicated thread of a schedulable component with work has a pending unpark, or a pool task or another thread holds a token |
| `ComponentTheorems.HandlersRunUnblocked` | core/src/component/actual_component.rs:401-425 | At most one thread is inside the mutex; timer actions, messages and port events run only while the flag is Active, control handlers only under the flag of their event, and neither while a blocking future is stored or unfinished |
| `ComponentTheorems.PopsNeedUnblocked` | core/src/component/actual_component.rs:506-567 | A step takes a control event only from an unblocked component, and a timeout, message or port event only from an unblocked Active one |
| `ComponentTheorems.BlockingFlagIffFuture` | core/src/component/context.rs:182-197 | While the mutex is free, a stored blocking future and the flag Blocking coincide exactly when no panic has poisoned the mutex under the flag Blocking; a poisoned mutex has no future stored, and its component is Faulty or the panicking thread is about to make it so |
| `WitnessRuns.PanicWindowIsReached` | core/src/component/actual_component.rs:673-730 | A run into that window: a start handler blocks and the first poll of its future panics |
| `BlockingTheorems.TransitionAppliedOnce` | core/src/component/context.rs:220-268 | In every run every applied or abandoned transition is the one recorded when its future was stored, no future is stored before the previous one was closed, and the polls that ended Ok, Benign, or with shutdown while being killed are exactly the transitions applied or just being applied |
| `BlockingTheorems.CompletionsApplied` | core/src/component/context.rs:220-268 | In every run, per transition: stored futures are the handlers that returned BlockOn, applied transitions (or the one about to be) the polls that ended Ok, Benign, or with shutdown while being killed, abandoned ones the polls that ended otherwise |
| `BlockingTheorems.EveryFutureEndsOnce` | core/src/component/context.rs:182-268 | While the mutex is free: as many handlers blocked with a transition as polls ended its futures, plus the one still stored |
| `BlockingTheorems.BlockedWakeupNotLost` | core/src/component/future_task.rs:16-21 | In every run: if a waker fired since the stored future was last taken for polling, there is a pool task, a thread on its way to poll it, or, with a dedicated thread, a pending unpark or its exit |
| `BlockingTheorems.StepPolls` | core/src/component/actual_component.rs:401-425 | One step passes the duty to poll an open future on |
| `ComponentTheorems.BracketedPairs` | core/src/component/context.rs:220-268 | In a bracketed history every closing event directly follows the storing event of the same transition |
| `ComponentTheorems.ApplyingSetsFlag` | core/src/component/context.rs:220-268 | The step that applies a recorded transition finds the flag Blocking and that transition open, and leaves the flag the transition names with no future stored |
| `ComponentTheorems.StepIsOneWordOperation` | core/src/component/lifecycle.rs:78-142 | From any state, every step performs on the lifecycle word exactly the operation of its program point (add, subtract the local count, or set a given flag), within its bounds, or none |
| `ComponentTheorems.DestroyedLeftIff` | core/src/component/actual_component.rs:428-505 | In every run, a step leaves Destroyed exactly when its thread sets the flag for a start or stop event of the same drain, lets the kill handler block, reports a recoverable fault, or has panicked |
| `WitnessRuns.KilledComponentRestarts` | core/src/component/actual_component.rs:428-453 | A run in which the kill handler completes and the same execution ends with the component Active, its work subtracted and the mutex free |
| `ExecutionTheorems.ThroughputBound` | core/src/component/actual_component.rs:511-567 | In every run a timeout, message or port event is taken exactly while its loop finds one and the local count is below the throughput, or below the message limit in the first message loop; control events are taken without limit; queues change at their ends only, by exactly what is pushed and taken; what was taken is handled next; a timer action runs exactly if its handle is there, and a one-shot handle is gone then |
| `ExecutionTheorems.QueuesAreFifo` | core/src/component/actual_component.rs:171-177 | In every run the control events and timeouts that wait are, in order, those pushed without those taken |
| `ExecutionTheorems.RunsFollowStages` | core/src/component/actual_component.rs:427-569 | In every run an execution goes through control events, the activity check, timers, messages, ports, more messages and the subtraction in this order; it goes on in a loop exactly while that is not exhausted, an inactive component skips to the subtraction, and only a handler that blocks, fails or shuts down leaves early |
| `ExecutionTheorems.ActiveLeavesExhausted` | core/src/component/actual_component.rs:506-567 | In every run, an execution of an Active component that goes on to subtract has used up its throughput or found no message; one that handled nothing found no message |
| `OutcomeTheorems.StepPoisons` | core/src/component/actual_component.rs:673-730 | From any state, a step poisons the mutex and makes its thread panic exactly when user code panics under the mutex or blocks where it must not |
| `OutcomeTheorems.ShutdownRunsKill` | core/src/component/actual_component.rs:385-395 | A handler or future that asks for shutdown is followed by the kill handler exactly when it does not itself belong to the kill handler |
| `ExecutionTheorems.EntryIff` | core/src/component/actual_component.rs:673-684 | A thread enters exactly a component that is neither Destroyed nor Faulty, waits for the mutex, and panics exactly on a poisoned one |
| `ExecutionTheorems.StepSchedules` | core/src/component/actual_component.rs:732-740 | What every program point does to pool tasks and to the park token; timeouts and port events go to the pool even with a dedicated thread |
| `ExecutionTheorems.ReturnLeadsOn` | core/src/dedicated_scheduler.rs:97-126 | The dedicated loop exits exactly when stopped or Destroyed, idles exactly without work or when blocked; a pool worker goes on exactly to resume |
| `ExecutionTheorems.ParkedWakesIff` | core/src/dedicated_scheduler.rs:97-130 | An idle dedicated thread looks again or parks; parked, it goes on exactly when it has been unparked |
| `ExecutionTheorems.CompletedResumes` | core/src/component/mod.rs:642-676 | After a finished blocking future the execution resumes without a detour over the pool exactly if work may be left |
| `OutcomeTheorems.AppliedRestoresFlag` | core/src/component/context.rs:246-264 | In every run, applying a finished blocking future leaves the flag under which the handler that blocked was running, and Active after a polled non-blocking future |
| `OutcomeTheorems.HandlersRunUnder` | core/src/component/actual_component.rs:428-453 | Start handlers run under Active, stop handlers under Passive, kill handlers under Destroyed, everything else but polls under Active |
| `OutcomeTheorems.ExecutionEndsIn` | core/src/component/actual_component.rs:283-350 | In every run, an execution whose last handler or poll reported a recoverable fault ends Faulty, an unrecoverable one Destroyed, a request to shut down Destroyed; after a fault it reports no work |
| `WordTheorems.RunIsOperations` | core/src/component/lifecycle.rs:78-142 | The flag and count of every run are what the operations of its steps, in order, make of Passive with no work, and none of them overflows or underflows |
| `WordTheorems.WordFollowsRun` | core/src/component/lifecycle.rs:78-142 | Every interleaving of moves on the packed word, with `set_state` split into load and exchange, whose effects are the operations of the steps of a run ends in a word that reads back the flag and count of the run; and there is one from the initial word |
| `WordTheorems.OperationsAreMoves` | core/src/component/lifecycle.rs:131-142 | Any bounded operations on the pair are the effect of moves on the word, a flag change being a load and an exchange |
| `ComponentTheorems.SystemKeepsInv` | core/src/component/actual_component.rs:397-575 | The inductive invariant (mutex, blocking future, count balance, wake-up duty, token count, dedicated thread) is kept by every step of every thread and every environment move |
| `ComponentTheorems.RunsKeepInv` | core/src/component/actual_component.rs:397-575 | The invariant holds in every reachable state |
| `ComponentTheorems.CalmRuns` | core/src/component/actual_component.rs:335-395 | Runs without fault, shutdown or panic lose no work and never poison the mutex |
| `ComponentTheorems.NeverBlockingRuns` | core/src/component/actual_component.rs:4-50 | Runs in which no handler returns BlockOn store no future |
| `ComponentInvariants.StepBalance` | core/src/component/actual_component.rs:171-177 | One step of any thread changes the count by exactly what it changes in queues, announced, popped, stale and lost work, and the last two change exactly as its program point and choice say |
| `ComponentInvariants.StepEffect` | core/src/component/lifecycle.rs:78-142 | From any state, the exact effect of every program point on the lifecycle word, on discarded timeouts and on lost work |
| `ComponentInvariants.StepStructure` | core/src/component/actual_component.rs:397-575 | One step keeps what the mutex owner knows at each program point and does not disturb the other threads |
| `ComponentInvariants.StepDuty` | core/src/component/mod.rs:642-676 | One step hands the duty to look at the count on, unless nothing is left to do, and keeps the exact token count of a pool component that never blocked |
| `ComponentInvariants.StepTrace` | core/src/timer/timer_manager.rs:238-259 | One step pops only in its loops, has the exact effect of its program point on the word and on stale and lost work, and extends the blocking history exactly as the program point and the result of the handler or poll call for |
| `PackedWord.WordRefinesPair` | core/src/component/lifecycle.rs:131-142 | Any interleaving of fetch_add, fetch_sub and the load and compare-and-exchange steps of `set_state` by any number of threads acts on the packed word as atomic operations on the pair (flag, count); the flag stays valid |
| `PackedWord.MoveSimulates` | core/src/component/lifecycle.rs:131-142 | One such move is at most one operation on the pair; loads and failed exchanges are none |
| `PackedWord.OpSimulates` | core/src/component/lifecycle.rs:78-103 | Within its bounds each operation on the word is the operation on the pair |
| `PackedWord.AddKeepsFlagIffValid` | core/src/component/lifecycle.rs:113-125 | fetch_add leaves the flag alone exactly when the validation accepts the old word, and yields an invalid flag exactly from Blocking with a full count |
| `PackedWord.FlagCodes` | core/src/component/lifecycle.rs:23-49 | The top three bits are 0 to 4 for Active, Passive, Destroyed, Faulty and Blocking, and a word reads as valid exactly for those |
| `PackedWord.PackThenRead` | core/src/component/lifecycle.rs:38-49 | Reading a packed flag and count gives them back |
| `PackedWord.ReadThenPack` | core/src/component/lifecycle.rs:38-49 | A word with a valid flag is the packing of what is read from it |
| `PackedWord.MaskIsRemainder` | core/src/component/lifecycle.rs:106-111 | The masks of the original are remainder, difference and sum |
| `PackedWord.InitialWord` | core/src/component/lifecycle.rs:127-129 | The initial word is Passive with no work |
| `PackedWord.AtomicWord.IncrementWork` | core/src/component/lifecycle.rs:78-82 | Adds one to the count, keeps the flag, decides from the old pair; aborts exactly on a full count |
| `PackedWord.AtomicWord.DecrementWork` | core/src/component/lifecycle.rs:84-103 | Subtracts from the count, keeps the flag, decides from the new count; aborts exactly on underflow |
| `PackedWord.AtomicWord.SetState` | core/src/component/lifecycle.rs:131-142 | The loop, with arbitrary interference between load and exchange, replaces the flag and keeps every interfering change of the count |
| `PackedWord.AtomicWord.CompareExchange` | core/src/component/lifecycle.rs:131-142 | Succeeds exactly on the word that was loaded, and then replaces the flag only |
| `DispatcherLinks.NoStrandedQueue` | network/src/dispatcher.rs:460-501 | With a bridge and no transport-reported ConnectionDropped, in every run: an address that is initializing, lost or has queued frames is in the retry map |
| `DispatcherLinks.StepNotStranded` | network/src/dispatcher.rs:503-571 | Every single event keeps that, from any state |
| `DispatcherLinks.TransportDroppedStrands` | network/src/dispatcher.rs:525-529 | From any state, a transport-reported ConnectionDropped leaves a link not stranded exactly when it awaits no connection and has no queued frame |
| `DispatcherLinks.DropStrandsForGood` | network/src/dispatcher.rs:525-529 | A reachable stranded link: the first frame waits, a drop is reported, the frame stays queued, and no retry tick changes anything |
| `DispatcherLinks.NeverStrandedIff` | network/src/dispatcher.rs:503-571 | With a bridge, a run is never stranded after any of its events exactly when every reported drop finds the link awaiting no connection and without queued frames |
| `DispatcherLinks.NoBridgeStrands` | network/src/dispatcher.rs:699-715 | Without a bridge the first frame for a new address is stranded |
| `DispatcherLinks.FifoWhileTaken` | network/src/dispatcher.rs:716-749 | While the bridge takes frames and nothing is rejected or given up: frames handed over followed by queued frames are the accepted frames in submission order |
| `DispatcherLinks.QueueOrder` | network/src/queue_manager.rs:25-61 | In every run, while the bridge comes and goes, the queue is the youngest rejected frames in rejection order followed by the youngest accepted frames in submission order |
| `DispatcherLinks.RejectedFramesGoFirst` | network/src/dispatcher.rs:716-733 | In every run and for every event and pattern of refusals: exactly so many frames leave as the event hands out (all on established, closed or given-up links, up to the first refusal on submitting to a connected one, else none); they are a prefix of rejected, waiting and new frames, in this order; the bridge gets the taken ones and the others are lost, in order; the rest stays queued; and a frame never handed out before leaves only once no rejected frame waits |
| `DispatcherLinks.NextDrainHandsOverRejected` | network/src/dispatcher.rs:573-595 | After any run, the next drain through a bridge that takes that many frames hands over all rejected frames in rejection order before anything else, and none waits any more |
| `DispatcherLinks.StepDials` | network/src/dispatcher.rs:460-501 | Exactly frames for a new or closed address and retries below the maximum are dialled, and exactly giving up indicates a drop |
| `DispatcherLinks.EstablishedIsLeftAlone` | network/src/dispatcher.rs:573-595 | After any run that ends with an established connection any number of ticks changes nothing: no dial, no drop, no panic, the connection still there, no retry entry |
| `DispatcherLinks.StepRetries` | network/src/dispatcher.rs:503-637 | The retry counter after every event: removed by an established connection, a reported drop and giving up; restarted by a first dial and by frames that wait for a closed connection; started if absent by a loss, a rejection, a network failure and a frame for a closed connection; counted up by ticks; otherwise unchanged |
| `DispatcherLinks.StepConnection` | network/src/dispatcher.rs:503-765 | The connection state after every event |
| `DispatcherLinks.StepPanics` | network/src/dispatcher.rs:460-501 | A step panics exactly on a refused dial for the first frame of an address or in a retry |
| `DispatcherLinks.StepHandsOut` | network/src/dispatcher.rs:573-595 | The same for one event from any state |
| `DispatcherLinks.StepLogs` | network/src/dispatcher.rs:691-765 | Exactly the new frames of an address that is not blocked are accepted, exactly the rejected ones returned |
| `DispatcherLinks.FramesConserved` | network/src/dispatcher.rs:565-595 | In every run, while the bridge comes and goes and whatever it refuses, rejects or gives up: frames handed over, lost and queued together are the accepted and the returned frames, as multisets |
| `DispatcherLinks.TakenLosesNothing` | network/src/dispatcher.rs:716-749 | While the bridge takes every frame and no address is given up, no frame is lost |
| `DispatcherLinks.RetryBounded` | network/src/dispatcher.rs:460-501 | In every run, while the bridge comes and goes, each retry counter is at most the configured maximum, so a u8 never overflows |
| `DispatcherLinks.RetriesThenGivesUp` | network/src/dispatcher.rs:460-501 | After k ticks from counter 0 without other events: exactly min(k, max) dials, and after max + 1 ticks queue, state and counter are gone with exactly one ConnectionDropped indication |
| `NetworkDispatch.QueueManager.EnqueueData` | network/src/queue_manager.rs:25-28 | Appends to the ordinary queue of one address, all others unchanged |
| `NetworkDispatch.QueueManager.EnqueuePriorityData` | network/src/queue_manager.rs:30-34 | Appends to the priority queue of one address, all others unchanged |
| `NetworkDispatch.QueueManager.PopData` | network/src/queue_manager.rs:36-49 | Takes the first priority frame, else the first ordinary one, else nothing, and only from this address |
| `NetworkDispatch.QueueManager.DropQueue` | network/src/queue_manager.rs:51-54 | Empties both queues of one address |
| `NetworkDispatch.QueueManager.HasData` | network/src/queue_manager.rs:56-61 | True exactly when the combined queue is not empty |
| `NetworkDispatch.NetworkDispatcher.RouteRemoteTcp` | network/src/dispatcher.rs:691-765 | Acts on the addressed link as the link function says, panics exactly when a dial for a new address is refused, leaves all other addresses alone |
| `NetworkDispatch.NetworkDispatcher.RouteNew` | network/src/dispatcher.rs:699-715 | First frame: queue, insert the counter, dial |
| `NetworkDispatch.NetworkDispatcher.RouteClosed` | network/src/dispatcher.rs:738-745 | Closed connection: queue, keep or insert the counter, dial, become initializing |
| `NetworkDispatch.NetworkDispatcher.RouteConnected` | network/src/dispatcher.rs:716-733 | Connected: behind queued frames if there are any, else directly |
| `NetworkDispatch.NetworkDispatcher.RouteAllOrFail` | network/src/dispatcher.rs:716-733 | The drain loop that ends at the first refused frame |
| `NetworkDispatch.NetworkDispatcher.RouteAll` | network/src/dispatcher.rs:573-595 | The drain loop that pops everything, refused or not |
| `NetworkDispatch.NetworkDispatcher.ConnectionEstablished` | network/src/dispatcher.rs:573-595 | Drains the queue, removes the counter, becomes connected |
| `NetworkDispatch.NetworkDispatcher.ConnectionClosed` | network/src/dispatcher.rs:597-616 | Becomes closed, with a fresh counter exactly when frames are queued |
| `NetworkDispatch.NetworkDispatcher.ConnectionLost` | network/src/dispatcher.rs:618-637 | Becomes lost, keeping or inserting the counter |
| `NetworkDispatch.NetworkDispatcher.OnEvent` | network/src/dispatcher.rs:503-571 | Dropped, blocked, allowed and rejected-frame events as the link function says |
| `NetworkDispatch.NetworkDispatcher.CloseChannelTo` | network/src/dispatcher.rs:913-946 | Drains a connected link |
| `NetworkDispatch.NetworkDispatcher.ScheduleRetries` | network/src/dispatcher.rs:460-501 | One tick is the tick of every link, each with its own dial, in whatever order the map is walked; panics exactly when some dial is refused |
| `NetworkDispatch.NetworkDispatcher.Perform` | network/src/dispatcher.rs:388-571 | Any call changes every link as its own event says, and panics exactly when one of them does |
| `NetworkDispatch.PerformAll` | network/src/dispatcher.rs:388-765 | After any sequence of calls every link of the dispatcher is what the events of its address, taken alone, make of it; the dispatcher panics exactly when one link does |
| `NetworkDispatch.NetworkDispatcher.HandleNetworkFailure` | network/src/dispatcher.rs:388-405 | Every connected link becomes lost with a counter, all others stay, and there is a bridge again |
| `Supervision.ShutdownInvariant` | core/src/supervision.rs:292-400 | In every run a pending shutdown has children left, all of them sent Kill, and every requested promise is completed, replaced or pending, exactly once |
| `Supervision.SingleShutdown` | core/src/supervision.rs:249-269 | With one request: the promise is pending with children left, all sent Kill, or completed exactly once |
| `Supervision.ShutdownCompletesIff` | core/src/supervision.rs:249-269 | With one request the promise is completed exactly when, at some point from the request on, every component that ever started has been reported killed or faulty since |
| `Supervision.ChildrenAreAlive` | core/src/supervision.rs:295-356 | In every run the tracked children are exactly the components whose last started, killed or faulted message is a started one |
| `Supervision.PendingShutdownHasAlive` | core/src/supervision.rs:372-395 | While a shutdown is pending some component is alive, and all that are were sent Kill |
| `Supervision.PendingIff` | core/src/supervision.rs:372-395 | In every run a shutdown is pending exactly when some component was alive at the last request and at every point since |
| `Supervision.KilledAreTold` | core/src/supervision.rs:295-307 | While a shutdown is pending, exactly the components alive at the last request and those started since were sent Kill |
| `Supervision.StepKills` | core/src/supervision.rs:295-307 | Kill goes to the children at a request and to a component that starts while a shutdown is pending, to nobody else, and only if one is pending afterwards |
| `Supervision.NoRequestNoKill` | core/src/supervision.rs:295-307 | Without a request nobody is sent Kill |
| `Supervision.RequestedArePromises` | core/src/supervision.rs:372-395 | In every run exactly the promises of the requests are taken, in order, and a pending one is the last |
| `Supervision.StillPending` | core/src/supervision.rs:230-269 | Which listeners wait after a message: nobody where waiting ends, otherwise those not served, and the new one |
| `Supervision.RecoveryIff` | core/src/supervision.rs:336-356 | The recovery handler of a faulted component runs exactly when no shutdown is pending |
| `Supervision.RegisteredAreListened` | core/src/supervision.rs:357-371 | In every run exactly the listeners that were subscribed with a promise of their own are registered, in order |
| `Supervision.CompletesOnlyWithoutChildren` | core/src/supervision.rs:249-269 | A promise completes only in a step after which no child is left, one at a time, and it is the right one |
| `Supervision.NoRecoveryDuringShutdown` | core/src/supervision.rs:336-356 | While a shutdown is pending no recovery handler runs |
| `Supervision.ListenersAccounted` | core/src/supervision.rs:230-247 | In every run the registered listeners of every component are its pending, completed and dropped ones |
| `Supervision.ListenerInExactlyOnePlace` | core/src/supervision.rs:230-247 | A listener registered once is in exactly one of pending, completed, dropped |
| `Supervision.CompletedByMatchingEvent` | core/src/supervision.rs:230-243 | A message completes exactly the pending listeners that wait for what it reports about their component, all of them and no others; for Killed, if the component is tracked |
| `Supervision.HandleActsOnDesks` | core/src/supervision.rs:292-400 | A message touches only the listeners of its component, except that completing a shutdown drops all |
| `Supervision.ComponentSupervisor.HandleMessage` | core/src/supervision.rs:292-400 | The object shows the state the specification computes, for every message |
| `Supervision.ComponentSupervisor.NotifyListeners` | core/src/supervision.rs:230-243 | Completes the selected listeners in order and keeps the others, for this component only |
| `Supervision.ComponentSupervisor.DropListenersOf` | core/src/supervision.rs:245-247 | Drops the listeners of one component only |
| `Supervision.ComponentSupervisor.CompleteIfNoMoreChildren` | core/src/supervision.rs:249-269 | Completes a pending shutdown exactly when no child is left, and drops all listeners then |
| `ConfigTree.MergeOfInsertIsInsert` | core/src/config/mod.rs:908-945 | Merging a source built by inserting one key into an empty config equals inserting that key into the accumulated tree |
| `ConfigTree.FinalSettingWins` | core/src/runtime/system.rs:128-135 | A final setting that is not a table is what `select` returns for its key whatever sources came before; a diverging path finds the same value or still fails, with the same error exactly when no scalar was in the way |
| `ConfigTree.MergeWalks` | core/src/config/mod.rs:330-337 | What any lookup finds in a merged tree, from what it finds in both: a value of the second prevails, merged into that of the first; a path the second merely lacks finds what it found; any other failure of the second prevails |
| `ConfigTree.LastSourceContributes` | core/src/runtime/config.rs:143-155 | The same for the last source, document or setting; in particular a value that is not a table in the last source is what `select` returns |
| `ConfigTree.WalkFindsInserted` | core/src/config/mod.rs:918-945 | Looking up an inserted non-table value finds it |
| `ConfigTree.InsertKeepsOtherPaths` | core/src/config/mod.rs:918-945 | Diverging paths keep their value or still fail; the error is the same exactly when no scalar on the shared way gave way to a table |
| `ConfigTree.InsertCanChangeErrorKind` | core/src/config/mod.rs:918-945 | A concrete tree on which insertion turns an invalid access into a missing key |
| `ConfigTree.MergeAssociativeIff` | core/src/config/mod.rs:330-337 | Merging three values is independent of grouping exactly when nowhere something other than a table stands between two tables of which the first has keys that the second lacks |
| `ConfigTree.MergeNotAssociative` | core/src/config/mod.rs:330-337 | A table, a number and a table on which grouping matters |
| `ConfigTree.CoveredIff` | core/src/config/mod.rs:330-337 | Merging adds nothing exactly when every key, at every depth where both are tables, is already there |
| `ConfigTree.ChainAgreesWithSelect` | core/src/config/mod.rs:589-622 | For any list of non-empty dot-free keys chained lookup and dotted lookup give the same value or the same error kind, failing key and parent type, and render the same path |
| `ConfigTree.RoutesAgreeIff` | core/src/config/mod.rs:61-94 | The two lookup routes agree on every tree exactly when all keys are non-empty and free of dots |
| `ConfigTree.RoutesDiffer` | core/src/config/mod.rs:589-622 | For any other keys, on the tree made for them the chain finds the value and the dotted route fails |
| `ConfigTree.ChainWalks` | core/src/config/mod.rs:53-58 | Chained lookup is the walk along its keys, and renders their dotted join |
| `ConfigTree.EmptyKeyDisagrees` | core/src/config/mod.rs:61-94 | On the empty key the two routes differ: missing against malformed |
| `ConfigTree.MergeInPlace` | core/src/config/mod.rs:908-916 | Merging entry by entry, in whatever order, gives the merged tree |
| `ConfigTree.InsertInPlace` | core/src/config/mod.rs:918-945 | Segment by segment, a value in the way is replaced by a table and the last segment is merged: the inserted tree |
| `ConfigTree.Config.MergeWith` | core/src/config/mod.rs:48-50 | The root becomes the merged tables |
| `ConfigTree.Config.InsertValue` | core/src/config/mod.rs:112-115 | The root becomes the tree with the dotted key inserted |
| `ConfigTree.Config.Load` | core/src/runtime/system.rs:128-135 | Loading merges the sources in order; a key setting is a one-key tree (core/src/runtime/config.rs:143-155) |
| `ConfigTree.Config.SelectPath` | core/src/config/mod.rs:61-94 | The loop finds what the walk along the split path finds, errors included |
| `Separated.SplitInvertsJoinIff` | core/src/messaging/framing.rs:417-424 | Splitting undoes joining exactly when there is a part and no part contains the separator |
| `Separated.SplitThenJoin` | core/src/config/mod.rs:61-94 | Joining undoes splitting, always |
| `SerdeCodec.RoundTrip` | core/src/serialisation/serde_serialisers.rs:69-448 | For every shape of the data model, every value of it and any trailing bytes: reading the encoding gives the value and leaves exactly the trailing bytes |
| `SerdeCodec.ScalarLayout` | core/src/serialisation/serde_serialisers.rs:80-160 | Booleans and absent options are one byte, 1 or 0; numbers and chars are their bytes, high byte first; unit is nothing |
| `SerdeCodec.CompoundLayout` | core/src/serialisation/serde_serialisers.rs:142-300 | Strings, bytes, sequences and maps start with a u64 count, enum variants with a u32 index, high byte first; a present option starts with 1; tuples and structs are just their parts |
| `SerdeCodec.PartsInOrder` | core/src/serialisation/serde_serialisers.rs:303-339 | Elements follow each other in order |
| `SerdeCodec.KeyBeforeValue` | core/src/serialisation/serde_serialisers.rs:381-412 | An entry is its key followed by its value |
| `SerdeCodec.AnyFlagIsRead` | core/src/serialisation/serde_serialisers.rs:489-496 | Every non-zero flag byte is read as true or present |
| `Utf8Text.Utf8Iff` | core/src/serialisation/serde_serialisers.rs:598-610 | Byte strings pass the string check exactly when they are the UTF-8 text of some Unicode scalar values |
| `SerdeCodec.PrefixFree` | core/src/serialisation/serde_serialisers.rs:69-448 | Two encodings of one shape with arbitrary tails coincide only if values and tails do |
| `SerdeCodec.Injective` | core/src/serialisation/serde_serialisers.rs:69-448 | Encodings of one shape are equal exactly when the values are |
| `SerdeInverse.Sound` | core/src/serialisation/serde_serialisers.rs:476-895 | Whatever bytes are read, the value belongs to the shape (range, scalar value, UTF-8, lengths, variant index) and exactly as many bytes as its encoding has are consumed |
| `SerdeInverse.RewrittenIff` | core/src/serialisation/serde_serialisers.rs:489-496 | Writing a value that was read gives the bytes it was read from exactly when every flag byte met on the way was 0 or 1 |
| `SerdeBuffers.Serialize` | core/src/serialisation/serde_serialisers.rs:69-448 | Appends exactly the encoding to the buffer |
| `SerdeBuffers.SerializeElements` | core/src/serialisation/serde_serialisers.rs:303-321 | Element by element, appends the encodings in order |
| `SerdeBuffers.SerializeEntries` | core/src/serialisation/serde_serialisers.rs:380-413 | Key and value of each entry, in order |
| `SerdeBuffers.SerializeBlob` | core/src/serialisation/serde_serialisers.rs:142-155 | Length and raw bytes |
| `SerdeBuffers.Deserialize` | core/src/serialisation/serde_serialisers.rs:476-779 | Returns what the specification reads and leaves what it leaves, or fails as it fails |
| `SerdeBuffers.DeserializeItems` | core/src/serialisation/serde_serialisers.rs:781-813 | The counting loop of sequences reads exactly `length` elements |
| `SerdeBuffers.DeserializeFields` | core/src/serialisation/serde_serialisers.rs:694-739 | The counting loop of tuples and structs reads one element per field |
| `SerdeBuffers.DeserializeEntries` | core/src/serialisation/serde_serialisers.rs:817-838 | The counting loop of maps reads exactly `length` entries |
| `SerdeBuffers.DeserializeEnum` | core/src/serialisation/serde_serialisers.rs:845-895 | Index, then the content of that variant; an unknown index is an error |
| `SerdeBuffers.DeserializeBlob` | core/src/serialisation/serde_serialisers.rs:598-633 | Length and that many bytes; a string must be UTF-8 |
| `SerdeBuffers.WriteThenRead` | core/src/serialisation/serde_serialisers.rs:26-56 | Written with the serializer and read with the deserializer, the value comes back and later bytes are untouched |
| `WireBytes.PutThenGet` | core/src/serialisation/serde_serialisers.rs:86-124 | A number in the signed or unsigned range of its width is read back, two's complement included, whatever follows |
| `WireBytes.PutIsBigEndian` | core/src/serialisation/serde_serialisers.rs:86-124 | Byte i of a written number is its digit to the base 256 of that place, the most significant first |
| `WireBytes.NumberIsBigEndian` | core/src/serialisation/serde_serialisers.rs:498-560 | A number that is read weighs its first byte highest |
| `WireBytes.GetThenPut` | core/src/serialisation/serde_serialisers.rs:498-560 | Writing what was read reproduces the bytes |
| `BitFields.Store` | core/src/messaging/bitfields.rs:49-67 | Refuses exactly the fields that do not fit; otherwise changes only the bits of the field, to the low bits of the value |
| `BitFields.GetAs` | core/src/messaging/bitfields.rs:69-89 | Refuses exactly the fields that do not fit; otherwise reads the bits of the field, zeroes above |
| `BitFields.FieldFitsIff` | core/src/messaging/bitfields.rs:91-106 | A field of at least one bit fits exactly when it has at most eight and the slice has all of them |
| `BitFields.StoreThenGet` | core/src/messaging/bitfields.rs:49-89 | What was stored is read back, cut to the width of the field |
| `BitFields.StoreKeepsOthers` | core/src/messaging/bitfields.rs:49-89 | A field without common bits reads as before |
| `BitFields.GetBitAgrees` | core/src/messaging/bitfields.rs:121-123 | Shifting down and masking with one gives the bit read off by halving, at every position |
| `BitFields.SetBitAgrees` | core/src/messaging/bitfields.rs:133-135 | The mask expression of `set_bit_to` is the bit set by halving, at every position |
| `BitFields.WithBit` | core/src/messaging/bitfields.rs:133-135 | Sets one bit of a byte and no other |
| `PathCodec.HeaderAcceptedIff` | core/src/messaging/framing.rs:186-209 | The decoder accepts exactly the bytes whose low five bits are 0, 1 or 2, always as IPv4 |
| `PathCodec.HeaderRoundTripIff` | core/src/messaging/framing.rs:128-155 | A header survives exactly when it is not IPv6; an IPv6 header is refused |
| `PathCodec.BuildHeader` | core/src/messaging/framing.rs:128-155 | The three stores, in the order of the code and with overlapping fields, give this byte |
| `PathCodec.ParseHeader` | core/src/messaging/framing.rs:186-209 | The three reads give the decoded header or its error |
| `PathCodec.HeaderFromStores` | core/src/messaging/framing.rs:34-47 | The byte that results from storing path type, transport and address type |
| `PathCodec.PathRoundTripIff` | core/src/messaging/framing.rs:324-431 | Any path that can be written is read back, with any suffix left, exactly when it is IPv4 and, if named, has at least one segment and no slash in any |
| `PathCodec.PathLayout` | core/src/messaging/framing.rs:271-378 | A path byte by byte: header, address, port with its high byte first, then the UUID, or the length of the name with its high byte first and the name |
| `PathCodec.FirstByteOf` | core/src/messaging/framing.rs:128-155 | The header byte: 0, 1 or 2 for local, TCP or UDP, plus 128 for a named path, plus 4 for IPv6 |
| `PathCodec.SlashJoins` | core/src/messaging/framing.rs:368-369 | Segments are joined with byte 47 |
| `PathCodec.SystemFailsAs` | core/src/messaging/framing.rs:280-314 | Exactly how reading a system path fails |
| `PathCodec.TailFailsAs` | core/src/messaging/framing.rs:390-424 | Exactly how reading the rest of a path fails |
| `PathCodec.IPv6Refused` | core/src/messaging/framing.rs:279-314 | Every IPv6 path is refused, whatever follows |
| `PathCodec.EmptyNameGainsSegment` | core/src/messaging/framing.rs:403-424 | The empty named path is read back with one empty segment |
| `PathCodec.PathRewrittenIff` | core/src/messaging/framing.rs:386-431 | Whatever was read is valid and decodable and can be written; the bytes are the same exactly when header bits 5 and 6 were clear |
| `PathCodec.SerialisePath` | core/src/messaging/framing.rs:355-378 | Appends the encoding, or fails on a name over 65535 bytes with the system part already written |
| `PathCodec.DeserialisePath` | core/src/messaging/framing.rs:387-431 | Reads what the specification reads, or fails as it fails |
| `PathCodec.DeserialiseSystem` | core/src/messaging/framing.rs:280-314 | Header, address and port, with the errors of each |
| `MessageFrames.HeadRoundTripIff` | core/src/net/frames.rs:185-224 | A frame head is read back exactly when its content length is below 2^32 |
| `MessageFrames.DecodeHeadFrom` | core/src/net/frames.rs:204-224 | Too few bytes, a wrong magic number, or the head |
| `MessageFrames.FrameLayout` | core/src/serialisation/ser_helpers.rs:98-138 | A data frame byte by byte: C0 A1 BA 11, the length of what follows the head with its high byte first, type 2, the path of the sender, the path of the receiver, the id with its high byte first, the payload |
| `MessageFrames.HeadLayout` | core/src/net/frames.rs:195-202 | A frame head byte by byte, with the code of every frame type |
| `MessageFrames.FrameLengthIff` | core/src/net/frames.rs:185-224 | The length in the head is the number of bytes after the nine byte head, exactly when that is below 2^32 |
| `MessageFrames.InsertHead` | core/src/net/buffers/chunk_lease.rs:60-69 | Overwrites the first nine bytes and nothing else |
| `MessageFrames.SerialiseMsg` | core/src/serialisation/ser_helpers.rs:98-138 | Direct serialisation gives the frame of the message, or the first error in order sender, receiver, payload |
| `MessageFrames.PreserialiseMsg` | core/src/serialisation/ser_helpers.rs:142-153 | Id and payload |
| `MessageFrames.SerialiseWithPreserialised` | core/src/serialisation/ser_helpers.rs:157-172 | The frame of both paths and the content |
| `MessageFrames.PreserialiseThenAttach` | core/src/serialisation/ser_helpers.rs:142-172 | Preserialising and attaching gives the frame of direct serialisation |
| `MessageFrames.EmbedMsg` | core/src/serialisation/ser_helpers.rs:177-231 | Embedding, with its four payload carriers |
| `MessageFrames.EmbedAgreesIff` | core/src/serialisation/ser_helpers.rs:191-224 | Embedding gives the frame of direct serialisation exactly when no part of a chunk payload has been read |
| `MessageFrames.DecodedRefNotForwarded` | core/src/serialisation/ser_helpers.rs:254-267 | A message decoded in place from a chunk reference is embedded neither as the frame it came in nor as the frame of its parts |
| `MessageFrames.MessageRoundTripIff` | core/src/serialisation/ser_helpers.rs:236-280 | Decoding a frame body gives sender, receiver, id and payload back exactly when both paths are decodable |
| `MessageFrames.ForwardedIff` | core/src/serialisation/ser_helpers.rs:177-231 | Any body that decodes can be framed again, and the frame is the same exactly when the spare bits of both path headers were clear |
| `MessageFrames.Deserialise` | core/src/serialisation/ser_helpers.rs:236-280 | The three decoders agree on the message; only decoding a chunk reference keeps the bytes already read |
| `MessageFrames.ThreeEncoders` | core/src/serialisation/ser_helpers.rs:98-280 | Direct, preserialised and decoded-then-embedded frames of one message are equal |

## Left out

- Supervisor messages sent by components on stop, kill and start, and the reference counts of children: components are ids and the supervisor receives arbitrary messages.
- Payloads of messages and port events, and the order and `skip` counter of ports: only their numbers matter to the protocol, the choice of port is arbitrary.
- The table of non-blocking futures: polling one is a control event whose handler has an arbitrary result.
- Deallocation of weakly referenced components, and memory orderings weaker than sequential consistency.
- The separate load and exchange of `set_state` inside the protocol: there a flag change is one step, which WordTheorems.WordFollowsRun justifies.
- A panic of the recovery function that follows a panic of a handler, which leaves `execute` outside the mutex; the one that follows a recoverable fault, inside the mutex, is modelled.
- `on_definition`, which also takes the mutex from outside an execution and poisons it if its closure panics.
- Timers: scheduling and cancelling are arbitrary changes of the handle map by handlers and polled futures; the hash-wheel itself is not modelled.
- The network bridge and transport: a log of what was handed over and arbitrary events. Any pattern of taken and refused frames and dials is possible.
- UDP and local routing, actor registration, the connection reaper, session ids and network status indications other than ConnectionDropped after giving up.
- Serde: sequences and maps whose length is not known up front, which the serializer refuses; `deserialize_any` and `deserialize_ignored_any`, which panic; memory exhaustion on a huge length; duplicate keys when entries are collected into a map.
- Real encoder buffers: chunk chaining, reservation and the errors of an exhausted pool; an encoder starts empty for each message. Serialisation ids have their default width of 64 bits.
- `Hello`, `Start`, `Ack` and `Bye` frame bodies, and size hints: easy members.
- UTF-8 inside path segments and the validation of path names: segments are byte strings, as the decoder treats them.
- TOML, byte-unit and duration parsing, array lookups by index, and typed config entries.
- Textual actor paths, routing groups, port channels, logging and error display.
- InsertCanChangeErrorKind: one concrete tree; the general statement is InsertKeepsOtherPaths.
