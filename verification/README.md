# Verified model of the OpenPit Go dispatcher and of its header generator

This project models, in Dafny, the parts of the OpenPit repository whose correctness is hardest to
see by reading:

* the asynchronous dispatcher of `bindings/go/asyncengine`: lanes that are created on demand and
  retired when idle, `Exclusive` sections that stop every lane, handle releases that run outside the
  lanes, and two stop modes that race all of it;
* the reader/finalizer protocol shared by `AsyncReservation` and `AsyncDropCopyOperation`;
* who closes a native handle and who resolves a future;
* the shard routing arithmetic, and the submit fence that orders sends against stop;
* three algorithms of `scripts/_generate_api_c_h.py`: the bracket-aware splitter, the doc-line
  normaliser, and the dependency ordering of structs with the reading of Rust types under it.

`dafny verify dfyconfig.toml` checks everything.

## How the dispatcher is modelled

`Dispatcher.dfy` is a transition system. Its state holds everything the goroutines share and one
program counter per public operation, per `Exclusive` call and per stop call; a step is one
critical section or one atomic action of the code, with four mergers that the file names. A run is
any sequence of enabled steps from an initial state, so statements about runs cover every
interleaving of any number of goroutines. `Lane.dfy` is one queue with its worker. `LaneMap`,
`Sections`, `Coverage`, `Ownership`, `Releases` and `Postponed` are the layers of the inductive
invariant; `Safety` puts them together. The other modules draw the conclusions: `Exclusive` and
`Endings` about sections, `Places`, `Routing` and `Order` about the order of work, `Outcomes`, `Fates`
and `Handles` about what becomes of an operation and its handle, `Progress`, `Stopping`, `Shutdown` and
`Drains` about who can always go on. `Races` holds concrete runs. `Wakeups` keeps the wake-up channels
of one lane, which the dispatcher abstracts.

The steps are functions on values because the lemmas about runs need them. `Queue.dfy` and
`Strategy.dfy` are the same critical sections as code: classes with the source's mutable fields
whose methods are proved to do exactly what the step functions say. `Lifecycle.dfy` and
`Handles.dfy` have their classes beside their transition systems in the same way; `ResolveDriverResult`
also stands for the start and drop-copy tasks (`engine.go:131-154` and `268-291`), which do the same
with their own handle types. Channels are flags or counters of closings, a mutex is the identity of
its holder, contexts and idleness are nondeterministic choices.

## Where the code does not keep its promises

Following the code step by step, three promises turned out not to hold for every input. The model
keeps the code's behaviour; each has a concrete counterexample and the exact condition.

1. **A lane can be retired while its worker runs a release** (`dynamic.go:419-454`,
   `strategy.go:163-171` and `617-650`). `retireIfIdle` looks at `pending` under the gate and then
   calls `markRetired`, which looks only at the backlog. A handed-off release takes no gate: it can be
   enqueued after the look and popped by the worker before `markRetired`. The lane is then sealed
   and unmapped while its worker is busy: a stray. A later `Exclusive` does not bar it, so its function
   overlaps the release (`Races.ExclusiveCanOverlap`), and a fresh lane for the same account runs beside
   it (`Races.KeysCanOverlap`). A seal makes a stray if and only if `pending` is not zero at it
   (`Safety.SealIsQuietIff`), the end of the release removes it, and in every run the retired lanes
   that still run something are exactly its strays (`Exclusive.StraysAreRunning`). The promise of
   `Exclusive` holds after a run if and only if no stray is left while a section's function runs
   (`Exclusive.ExclusiveHoldsIff`), and keys are served one at a time if and only if each stray is
   alone on its key (`Exclusive.KeysAreSerialIff`). Everything else that `Exclusive` promises holds in
   every run, race or no race (`Exclusive.FnStopsTheLanes`), and nothing is lost
   (`Safety.SealLosesNothing`).
2. **The submit fence can close with a producer in flight** (`strategy.go:345-349`). `endSubmit`
   takes the counter to zero and looks at the stop signal in two steps; a producer can register and
   the stop be signalled in between. On Sharded the next send panics on a closed channel
   (`SubmitFence.SendCanPanic`), against the comment at `strategy.go:369-373`; on Dynamic the engine can
   be released under a registered submit (`Races.ReleaseCanBeEarly`). The fence holds throughout a run
   if and only if the run has no such late look (`SubmitFence.FenceRuns`, `Order.FenceRuns`). With one,
   any producer that has not sent yet can be made to panic (`SubmitFence.LateLookCanPanic`), and what
   is in flight at a released engine is exactly what the late look left behind
   (`Order.ReleasedEngineLeavesLate`).
3. **`order_struct_items` does not terminate on repeated names**
   (`scripts/_generate_api_c_h.py:1663-1678`): it ends if and only if the names are distinct
   (`StructOrder.OrderingEndsIff`), and on two items of one name it never does
   (`StructOrder.TwinsLoopForever`). Such items are rare: the deduplication before it (`538-549`) keeps one
   declaration of each kind and name, so they can only stand for a struct and a union of one name, which
   are ordered together (`1803-1805`). For a whole header the ordering ends if and only if there is no
   such pair (`StructOrder.HeaderOrderingEndsIff`).

## Model

| member | source | states |
|---|---|---|
| Lanes.TakeWaitsForAcceptedWork | bindings/go/asyncengine/strategy.go:669-705 | a backlog entry becomes ready only when every task accepted before it was queued has been handled, whatever was admitted or abandoned since; a fenced one that goes at its first look behind the closed fence leaves nothing accepted and no admission open |
| Lanes.SettledHeadIsReady | bindings/go/asyncengine/strategy.go:694-698 | partner: with nothing accepted unhandled and no admission open the head entry is ready, so the counting never blocks it for good |
| Lanes.AdmitInv | bindings/go/asyncengine/strategy.go:909-915 | admitting a task keeps the counts and every entry's ordering target consistent |
| Lanes.SendInv | bindings/go/asyncengine/strategy.go:430-437 | a send turns an open admission into accepted work and keeps the lane invariant |
| Lanes.AbandonInv | bindings/go/asyncengine/strategy.go:931-950 | settling an abandoned admission and raising the later targets keeps every entry behind its accepted work |
| Lanes.EnqueueInv | bindings/go/asyncengine/strategy.go:617-653 | a new backlog entry is behind everything admitted so far |
| Lanes.PollMissInv | bindings/go/asyncengine/strategy.go:682-696 | a look at a head that is not ready keeps the invariant; behind the closed fence it makes a fenced head wait for exactly what has been admitted by then, and otherwise it leaves the backlog as it is |
| Lanes.NothingToDrain | bindings/go/asyncengine/strategy.go:755-774 | a worker that empties a retired lane finds its channel empty |
| Lanes.FirstReleaseDecides | bindings/go/asyncengine/strategy.go:176-186 | a submit is let past the backlog exactly if its first release, wherever the barriers are, is fenced and the stop signalled, or if there is none |
| Queues.KeyQueue.constructor | bindings/go/asyncengine/strategy.go:135-144 | a new queue is the empty lane |
| Queues.KeyQueue.Unfenced | bindings/go/asyncengine/strategy.go:176-186 | the scan for a queued release answers whether the producer is let through |
| Queues.KeyQueue.AdmitTask | bindings/go/asyncengine/strategy.go:909-915 | the ticket is one more than the admissions so far, pending rises, the channel is open, and the lane takes the admission step |
| Queues.KeyQueue.TrySend | bindings/go/asyncengine/strategy.go:430-437 | the non-blocking send appends to the channel exactly when there is room, and never meets a closed channel |
| Queues.KeyQueue.UnmarkSent | bindings/go/asyncengine/strategy.go:931-950 | the loop over the backlog raises by one exactly the targets of the entries queued before the admission, which is settled |
| Queues.KeyQueue.EnqueueMandatory | bindings/go/asyncengine/strategy.go:617-653 | unless the lane is retired or its worker has exited, the entry is appended with the admissions so far as cutoff and target |
| Queues.KeyQueue.TakeMandatoryCleanup | bindings/go/asyncengine/strategy.go:669-705 | hands out the head exactly when the settlements have reached its target, or, behind the closed fence, all that has been admitted; a fenced head that is not ready is given that cutoff and target, and nothing else in the backlog changes |
| Queues.KeyQueue.Receive | bindings/go/asyncengine/strategy.go:560-567 | the oldest buffered task goes to the worker |
| Queues.KeyQueue.FinishTask | bindings/go/asyncengine/strategy.go:710-730 | once a task is handled it leaves pending, and only that |
| Queues.KeyQueue.Settle | bindings/go/asyncengine/strategy.go:156-158 | settling comes after that, and only now may an entry behind the task go |
| Queues.KeyQueue.Retire | bindings/go/asyncengine/strategy.go:163-171 | markRetired refuses exactly while the backlog is not empty |
| Queues.KeyQueue.LockGate | bindings/go/asyncengine/dynamic.go:435-442 | locking the gate of an idle queue leaves its channel and its empty backlog as they are |
| Queues.KeyQueue.DrainAndAbort | bindings/go/asyncengine/strategy.go:755-774 | aborts and settles whatever is buffered, which on a lane that keeps its invariant is nothing |
| Queues.KeyQueue.FinishWorker | bindings/go/asyncengine/strategy.go:659-667 | a worker leaves exactly when the lane owes nothing |
| Queues.CloseQueueChannels | bindings/go/asyncengine/strategy.go:882-890 | the loop closes every queue of the snapshot and changes nothing else |
| LaneMap.StepBase | bindings/go/asyncengine/dynamic.go:121-176 | every step of every goroutine keeps the lane invariants, the lane map and the order of the stop signals |
| Strategies.DynamicStrategy.GetOrCreate | bindings/go/asyncengine/dynamic.go:143-174 | returns the live queue, or creates one, or reports stop, a key barrier or the cap, in exactly those states; the new state is the lookup step |
| Strategies.DynamicStrategy.Create | bindings/go/asyncengine/dynamic.go:162-172 | a created queue is mapped, starts with the barrier of an installed section, and is expected by it |
| Strategies.StartQueue | bindings/go/asyncengine/dynamic.go:162-170 | a queue made during a section has the barrier first in its backlog and raises expected by one |
| Strategies.DynamicStrategy.CleanupWithoutLiveLane | bindings/go/asyncengine/dynamic.go:312-341 | retry, postpone into the section, or run behind the key's barrier, in exactly the states of the off-lane step |
| Strategies.DynamicStrategy.LiftBarrier | bindings/go/asyncengine/dynamic.go:342-349 | ending the release removes the key's barrier and nothing else |
| Strategies.DynamicStrategy.BeginLifecycleCleanup | bindings/go/asyncengine/strategy.go:827-842 | counted, postponed into the section, or untracked after the seal |
| Strategies.DynamicStrategy.EndLifecycleCleanup | bindings/go/asyncengine/strategy.go:844-855 | the last counted release closes the epoch's channel |
| Strategies.DynamicStrategy.CheckIdle | bindings/go/asyncengine/dynamic.go:419-442 | goes on exactly with a queue that is still mapped, idle and ungated while no section is installed, and leaves its gate locked |
| Strategies.DynamicStrategy.SealOrLeave | bindings/go/asyncengine/dynamic.go:443-454 | whatever happened since, seals and unmaps the queue exactly when its backlog is empty, and otherwise only unlocks it |
| Strategies.DynamicStrategy.MarkStoppingAndSnapshot | bindings/go/asyncengine/dynamic.go:461-470 | the snapshot is every mapped queue and the strategy is stopping |
| Strategies.DynamicStrategy.InstallExclusive | bindings/go/asyncengine/dynamic.go:511-535 | publishes the section and returns exactly the open queues and the running releases |
| Strategies.DynamicStrategy.WithdrawExclusive | bindings/go/asyncengine/dynamic.go:537-551 | hands over the postponed releases, or withdraws exactly when there are none |
| Strategies.ExclusiveSection.Postpone | bindings/go/asyncengine/exclusive.go:114-118 | the release is appended to the postponed ones |
| Strategies.ExclusiveSection.TakeDeferred | bindings/go/asyncengine/exclusive.go:121-125 | takes all postponed releases in order and leaves none |
| Strategies.InvIsMapped | bindings/go/asyncengine/dynamic.go:36-51 | every reachable state satisfies what the methods of the strategy assume of the map |
| Sections.StepEx | bindings/go/asyncengine/exclusive.go:167-251 | every step keeps the turn, the installed section and the released sections consistent with the callers' positions |
| Sections.StepJoin | bindings/go/asyncengine/dynamic.go:472-503 | what a stop call has waited for stays true under every later step |
| Coverage.CountingIsSound | bindings/go/asyncengine/exclusive.go:224-235 | when parked reaches expected, every lane holding a barrier whose worker runs is parked at it |
| Coverage.CreatedIsBlocked | bindings/go/asyncengine/dynamic.go:165-170 | a lane created during a section starts with its barrier as the next thing it takes |
| Coverage.BlockedUntilFreed | bindings/go/asyncengine/exclusive.go:132-148 | over any run, a lane at or next to a barrier stays there until its section lets the lanes go |
| Coverage.CreatedStaysBlocked | bindings/go/asyncengine/dynamic.go:165-170 | a lane created during a section does nothing else until that section lets the lanes go |
| Coverage.StepCover | bindings/go/asyncengine/exclusive.go:219-235 | every step keeps every open lane barred, still to be barred, or blocked, while expected may grow |
| Ownership.StepOwn | bindings/go/asyncengine/dynamic.go:186-307 | every step keeps each operation owned by exactly one place and the log free of repetitions |
| Releases.StepOps | bindings/go/asyncengine/dynamic.go:312-351 | every step keeps releases, key barriers, registrations and the count against stop in agreement |
| Releases.StepWait | bindings/go/asyncengine/exclusive.go:210-218 | a section past its wait has outlived every release that was running when it was installed |
| Postponed.StepPostponed | bindings/go/asyncengine/dynamic.go:328-335 | every step keeps the key of a postponed release quiet: no barrier, and any lane for it blocked |
| Safety.RunInv | bindings/go/asyncengine/exclusive.go:167-251 | the whole invariant holds after every run |
| Safety.SealLosesNothing | bindings/go/asyncengine/dynamic.go:419-454 | at every seal no task is buffered or running, no producer is inside, no release is queued and no section is installed |
| Safety.SealIsQuietIff | bindings/go/asyncengine/dynamic.go:438-447 | the sealed lane's worker is idle if and only if pending is still zero at the seal |
| Safety.StepQuiet | bindings/go/asyncengine/strategy.go:163-171 | a step leaves all retired lanes idle if and only if it is not a racy seal |
| Safety.QuietRuns | bindings/go/asyncengine/dynamic.go:419-454 | retired lanes are idle throughout a run if and only if no seal of the run is racy |
| Exclusive.StraysAreRunning | bindings/go/asyncengine/dynamic.go:419-454 | in every run the retired lanes that still run something are exactly those a racy seal left with a release that has not ended |
| Exclusive.FnStopsTheLanes | bindings/go/asyncengine/exclusive.go:167-251 | in every run, while the function given to Exclusive runs, no channel task runs, every lane that is not retired is at the barrier or has it as the next thing it takes, no release runs off the lanes and no other section does anything |
| Exclusive.ExclusiveHoldsIff | bindings/go/asyncengine/exclusive.go:167-251 | after every run, no lane at all runs anything beside the function if and only if the run has no stray then |
| Exclusive.ExclusiveHolds | bindings/go/asyncengine/exclusive.go:167-251 | corollary for runs without a racy seal |
| Exclusive.KeysAreSerialIff | bindings/go/asyncengine/dynamic.go:312-351 | until a stop, each key has one runner (a lane, a release behind its barrier, or a release of the draining section) if and only if every stray of the run is alone on its key |
| Exclusive.KeysAreSerial | bindings/go/asyncengine/dynamic.go:312-351 | corollary for runs without a racy seal |
| Races.ExclusiveCanOverlap | bindings/go/asyncengine/dynamic.go:438-447 | a run with a racy seal in which the section's function overlaps a release |
| Races.KeysCanOverlap | bindings/go/asyncengine/dynamic.go:438-447 | a run with a racy seal in which two workers run work of one account |
| Races.ReleaseCanBeEarly | bindings/go/asyncengine/strategy.go:345-349 | a run with a racy fence check in which the engine is released while a registered submit is in flight |
| Outcomes.OwnerCarriesOut | bindings/go/asyncengine/strategy.go:528-575 | in every run, an accepted task, a queued or postponed release and a finished operation stay where they are until their owner carries them out, so none is dropped; how is said by the rows of Fates |
| Fates.OnlyHardStopsAbort | bindings/go/asyncengine/strategy.go:710-753 | in every run, no task is aborted and no barrier refused unless a hard stop has been signalled by then |
| Fates.RefusalIsReported | bindings/go/asyncengine/exclusive.go:140-148 | in every run, a section whose barrier a lane has refused has been told so, and no section is told so before a hard stop |
| Fates.ReceivedEndsAs | bindings/go/asyncengine/strategy.go:710-730 | in every run, a task that its lane received before the hard stop is run and one received after it is aborted; until then it stays with the lane |
| Fates.HowItEnded | bindings/go/asyncengine/dynamic.go:186-287 | in every run, an operation was run or aborted if and only if its send succeeded; otherwise its handle was released, or its failure only reported, according to whether it was to close its handle |
| Routing.EachAtItsOwnLane | bindings/go/asyncengine/dynamic.go:121-176 | in every run, whatever lane an operation is at, queued on or owed by is the lane of its own routing key |
| Routing.LookupFindsOpen | bindings/go/asyncengine/dynamic.go:128-175 | in every run, a lookup finds or makes a lane of the key that is open |
| Routing.OutsideComesLast | bindings/go/asyncengine/dynamic.go:292-341 | in every run, when a release turns away from the lanes, no operation of its key is accepted and not yet over, so it overtakes nothing |
| Routing.LimitMeansFull | bindings/go/asyncengine/dynamic.go:158-161 | in every run, the queue limit is reported only when the map is full and has no queue for the key |
| Routing.SubmitFailsForAReason | bindings/go/asyncengine/dynamic.go:186-240 | in every run, a submit fails only because of the stop, of a full map without a queue for its key, or of its own context; meeting a retired queue is no reason |
| Routing.BarrierOnlyAtLimit | bindings/go/asyncengine/dynamic.go:257-286 | in every run, a release runs behind a key barrier only if it found the map full |
| Outcomes.SettledOnce | bindings/go/asyncengine/strategy.go:43-51 | no operation is settled twice in any run, and it is over exactly when it is in the log |
| Outcomes.StopReleasesOnce | bindings/go/asyncengine/engine.go:784-814 | the engine is released at most once over any stops; from then on no worker, section or counted release is left and everything owned has been settled; that a stop gets there is said by the rows of Stopping and Shutdown |
| Stopping.StopIsNotStranded | bindings/go/asyncengine/dynamic.go:472-503 | in every run, a stop call that has not ended can go on without timing out, or it waits for the idle scan, a registered submit, a worker, a section or a counted release, and that one can move |
| Stopping.StepSubmits | bindings/go/asyncengine/strategy.go:345-349 | every step keeps that after a stop an open fence has a submit in flight or one about to look at the stop signal |
| Stopping.WayOutIsOpen | bindings/go/asyncengine/dynamic.go:186-307 | once the stop is signalled every registered submit has a step of its own, wherever it is |
| Stopping.WayOutLeads | bindings/go/asyncengine/dynamic.go:186-307 | that step ends the submit or brings it nearer its end, by a rank of at most eight |
| Stopping.StopDidWhatItSays | bindings/go/asyncengine/dynamic.go:488-503 | in every run, a stop call that has succeeded has released the engine; the stop is signalled, and the hard-stop flag set, if and only if some call got past doing it, for the flag one of a hard stop; and the idle scan has ended only if a stop call has come |
| Shutdown.StopCanSucceed | bindings/go/asyncengine/dynamic.go:472-503 | after every run, races included, there is a continuation in which a given stop call that has not timed out succeeds and the engine is released exactly once: no reachable state is a trap |
| Drains.LaneCanRest | bindings/go/asyncengine/strategy.go:528-575 | after every run, stopped or not, there is a continuation without further stop calls in which a given lane has carried out all it accepted and all it owed |
| Outcomes.SnapshotIsComplete | bindings/go/asyncengine/dynamic.go:461-470 | in every run, every lane that is not in the stop snapshot was retired |
| Outcomes.NoLaneAfterMark | bindings/go/asyncengine/dynamic.go:143-147 | once stopping is set it stays so and no lane is created, over every continuation |
| Outcomes.LaneMapHolds | bindings/go/asyncengine/dynamic.go:121-176 | after every run: one live lane per key, never more lanes than the cap, and no lane beside a barrier of its key |
| Outcomes.OneSectionInstalled | bindings/go/asyncengine/exclusive.go:168-183 | in every run at most one section is installed, an installation finds none, and only the installed one is withdrawn |
| Endings.SectionEndIsHonest | bindings/go/asyncengine/exclusive.go:184-208 | in every run, a section that let its lanes go has an end; it is the function's panic if and only if that step is in the run, a release's panic if and only if it is not and that release was the first to panic, and an early end only if the function was never started |
| Endings.NothingLeftPostponed | bindings/go/asyncengine/exclusive.go:192-208 | in every run, a section that has an end or has let its lanes go owns no postponed release |
| Progress.NobodyStranded | bindings/go/asyncengine/exclusive.go:132-148 | in every run and without any context ending, a worker at a barrier can go on, or its section can, or that section waits for one of the releases it found running, which can finish, for a lane that is coming closer to its barrier (its worker works, its channel or its head has work, an open admission can be settled, or the fence holds its head), or for what a stop has begun |
| Progress.LeavingSinks | bindings/go/asyncengine/exclusive.go:187-208 | an early end, a return and a panic of the function all lead to the drain, on which every step of the section leaves it less to do |
| Progress.OthersOnlyPostpone | bindings/go/asyncengine/exclusive.go:111-118 | nobody else gives a leaving section more to do, except by postponing one release into it while it drains |
| Order.ReleaseKeepsItsPlace | bindings/go/asyncengine/strategy.go:479-514 | after every run, a taken entry is behind the work accepted before it, and until a stop only submits already past the fence can have overtaken a release |
| Places.BacklogKeepsOrder | bindings/go/asyncengine/strategy.go:617-705 | over any run, when a lane takes a release or a barrier, every operation that was queued on it when that work was handed to it is over |
| Places.StoppedReleaseWaits | bindings/go/asyncengine/strategy.go:682-698 | over any run, when a lane takes a release handed over after the stop, every operation that was queued on it at any time before the fence closed is over |
| Places.CleanReleaseIsLast | bindings/go/asyncengine/dynamic.go:289-307 | over runs without a racy check, when a lane takes such a release nothing it accepted is left, no admission is open and nobody is on the way in |
| Places.PostponedRunInOrder | bindings/go/asyncengine/exclusive.go:114-125 | over any run, a section runs the releases postponed into it in the order in which they came |
| Order.StepFence | bindings/go/asyncengine/strategy.go:345-349 | a step keeps the closed fence free of registered producers if and only if it is not a racy check |
| Order.FenceRuns | bindings/go/asyncengine/strategy.go:335-349 | the fence keeps its promise throughout a run if and only if no step of the run is a racy check |
| Order.RacyCheckIsOverrun | bindings/go/asyncengine/strategy.go:345-349 | in every run, a racy check has a cause: its producer had left nobody in flight, and another was registered before it looked at the stop signal |
| Order.ReleasedEngineLeavesLate | bindings/go/asyncengine/dynamic.go:472-503 | in every run, what is in flight at a released engine is exactly what a racy check left registered, and every key barrier belongs to it |
| Order.ReleasedEngineIsIdle | bindings/go/asyncengine/dynamic.go:472-503 | corollary for runs without a racy check: no submit in flight and no release behind a key barrier |
| Wakeups.SleeperIsCalled | bindings/go/asyncengine/strategy.go:641-650 | in every run, a worker asleep with a ready entry has a token, a closed fence it listens to, or a token about to be sent; asleep on a retired or closed lane it can see the end |
| Wakeups.EndedWorkerWaitsForFence | bindings/go/asyncengine/strategy.go:545-552 | in every run, after its lane has ended a worker sleeps only while it owes something, and then waits for nothing but the submit fence unless it is called already |
| Wakeups.WaiterIsRegistered | bindings/go/asyncengine/strategy.go:479-514 | in every run, a fenced producer waits on a channel that is closed, or registered to be closed with the release that fences it still queued |
| SubmitFence.StepFence | bindings/go/asyncengine/strategy.go:345-349 | a step keeps the fence's promise if and only if it is not a late look at the stop signal |
| SubmitFence.FenceRuns | bindings/go/asyncengine/strategy.go:335-349 | the promise holds throughout a run if and only if no step of the run is a late look |
| SubmitFence.LateLookIsOverrun | bindings/go/asyncengine/strategy.go:345-349 | in every run, a late look has a cause: its producer had taken the counter to zero, and another was registered before it looked |
| SubmitFence.CleanRunsNeverPanic | bindings/go/asyncengine/strategy.go:369-394 | without a late look nobody sends on a closed shard channel |
| SubmitFence.LateLookCanPanic | bindings/go/asyncengine/strategy.go:345-349 | conversely, a late look while a producer has not sent yet always extends to a run in which that producer panics |
| SubmitFence.SendCanPanic | bindings/go/asyncengine/strategy.go:345-349 | a run of two producers and a stop that sends on a closed channel |
| SubmitFence.StopIsNotStranded | bindings/go/asyncengine/strategy.go:776-783 | while the stop waits for the fence some producer still has a step of its own |
| Lifecycle.Handle.MarkFinalizing | bindings/go/asyncengine/reservation.go:70-77 | the first critical section of a finalization, and the channel it has to wait for |
| Lifecycle.Handle.SettleFinalization | bindings/go/asyncengine/reservation.go:83-94 | the deferred one: closed is latched and decides the state |
| Lifecycle.Handle.TryBeginRead | bindings/go/asyncengine/reservation.go:110-130 | the answer of a read and the reader count, which rises exactly for an admitted read |
| Lifecycle.Handle.FinishRead | bindings/go/asyncengine/reservation.go:132-140 | the last reader closes the registered channel |
| Lifecycle.RunInv | bindings/go/asyncengine/drop_copy_operation.go:66-138 | the protocol's invariant holds after every run, for both wrappers |
| Lifecycle.NativeCallsAreAlone | bindings/go/asyncengine/reservation.go:68-108 | a native finalization never overlaps an admitted read, and at most one native call is in flight |
| Lifecycle.NoLostWakeup | bindings/go/asyncengine/reservation.go:132-140 | a waiting finalizer can wake, or has readers left and its channel registered |
| Lifecycle.ChannelsCloseOnce | bindings/go/asyncengine/reservation.go:135-138 | no readersDone channel is closed twice |
| Lifecycle.ClosedIsPermanent | bindings/go/asyncengine/reservation.go:81-95 | after a closing operation every read answers closed and the reader count stays zero, also while a later finalizer is at work |
| Lifecycle.ReadsAreToldTheTruth | bindings/go/asyncengine/reservation.go:110-130 | in every run, a read is told the handle is closed if and only if a closing operation has returned, that a finalization is in progress if and only if none has and some finalizer is at work, and is admitted otherwise |
| Lifecycle.AfterFinalization | bindings/go/asyncengine/drop_copy_operation.go:79-93 | reads resume after an operation that does not close, unless something closed the handle before |
| Handles.ValidateDriverResult | bindings/go/asyncengine/engine.go:71-94 | accepts exactly the results with one part, and no dead handle; the error keeps what the driver said |
| Handles.ResolveDriverResult | bindings/go/asyncengine/engine.go:193-222 | a driver handle is the sole live result or is closed, and the future gets one answer |
| Handles.RunExecute | bindings/go/asyncengine/request.go:54-59 | executing closes the request whatever the main stage says; the future gets the live reservation, the rejects, the error or the reason why the result is none of these, exactly as the driver returned them, and a reservation that is not handed out is closed |
| Handles.RunTask | bindings/go/asyncengine/reservation.go:287-290 | a close request closes, a commit, rollback or close is made as asked for, and the future is resolved once |
| Handles.EndUnrun | bindings/go/asyncengine/reservation.go:292-297 | an aborted or failed closing call closes its handle all the same, any other leaves it alone |
| Handles.CarryOut | bindings/go/asyncengine/request.go:85-165 | every way an operation can end makes the calls that the log stands for and resolves the future once |
| Handles.Future.Resolve | bindings/go/pkg/future/future.go:54-62 | only the first resolution has an effect |
| Handles.StepFits | bindings/go/asyncengine/reservation.go:250-274 | every step keeps closing calls on the handoff path and other calls off it |
| Handles.EndedExactlyOnce | bindings/go/asyncengine/request.go:85-165 | over any run a call's future is resolved exactly once, and a closing call closes its handle exactly once whoever carries it out |
| Handles.CallsAreTheOnesAskedFor | bindings/go/asyncengine/reservation.go:250-297 | in every run, a commit, rollback or close that ran made exactly that one call on its handle, an executed request was closed, and what did not run closed its handle unless it is one of the calls that leave it open |
| Sharding.XorUndoes | bindings/go/asyncengine/sharded.go:69-70 | mixing a fixed value in with exclusive or is its own inverse on 64-bit values |
| Sharding.XorIsBitwise | bindings/go/asyncengine/sharded.go:69-70 | a bit of the mix is set exactly where one of the two values has it and the other has not, within the width |
| Sharding.FibonacciIsGolden | bindings/go/asyncengine/sharded.go:41-50 | the multiplier is the whole part of 2^64 over the golden ratio, and both multipliers are odd |
| Sharding.ProductUndone | bindings/go/asyncengine/sharded.go:41-50 | a wrapping product by an invertible multiplier is undone by its inverse |
| Sharding.HashIsBijective | bindings/go/asyncengine/sharded.go:65-73 | within a kind, the hash is a bijection of the 64-bit values |
| Sharding.ShardInRange | bindings/go/asyncengine/sharded.go:71-72 | the shard index is below the number of shards, for every key and every positive number |
| Sharding.ShardsAreBalanced | bindings/go/asyncengine/sharded.go:65-73 | each shard owns the floor or the ceiling of 2^64 / n of the ids of a kind |
| TopLevel.JoinOfParts | scripts/_generate_api_c_h.py:1518-1535 | joining the parts gives back the text, for every text and every delimiter |
| TopLevel.PartsOfJoin | scripts/_generate_api_c_h.py:1518-1535 | splitting a join gives back the parts if and only if no cut falls inside a part and each delimiter is one to cut at |
| TopLevel.SplitOfJoin | scripts/_generate_api_c_h.py:1518-1535 | for a delimiter that is no bracket: if and only if the parts are balanced up to the last and have no delimiter outside brackets |
| TopLevel.BracketsProtect | scripts/_generate_api_c_h.py:1518-1535 | between an opening and a closing bracket of any of the three kinds no delimiter is cut at, and what follows is split as if they were not there |
| TopLevel.OnlyBracketsProtect | scripts/_generate_api_c_h.py:1518-1535 | a text without these six characters is cut at every delimiter |
| TopLevel.SplitTopLevel | scripts/_generate_api_c_h.py:1518-1535 | the scanner with its depth counter returns those parts |
| DocLines.NormalizeDocLines | scripts/_generate_api_c_h.py:1341-1365 | the loop returns the normal form of its lines |
| DocLines.NormalizeIsIdempotent | scripts/_generate_api_c_h.py:1341-1365 | normalising twice is normalising once, and leaves the same fence open, for every list of lines |
| DocLines.FixedPointsAreNormal | scripts/_generate_api_c_h.py:1341-1371 | a list is left alone if and only if blank lines are single and inner, text is stripped and each line outside code stands alone |
| DocLines.NormalizedIsNormal | scripts/_generate_api_c_h.py:1341-1371 | every output has that form |
| DocLines.NormalizeKeepsInk | scripts/_generate_api_c_h.py:1341-1365 | every character that is not whitespace is kept, in order |
| DocLines.NormalizeAbsorbs | scripts/_generate_api_c_h.py:1314-1322 | normalising a beginning first changes nothing in the end |
| DocLines.BlockIsPrefixClosed | scripts/_generate_api_c_h.py:1368-1371 | gluing text to a line that starts a block leaves it starting one |
| DocLines.BlockStarts | scripts/_generate_api_c_h.py:1368-1371 | character by character, the lines that start a block: headings, quotes, table rows, bullets, fences and numbered items of any length |
| DocLines.ParagraphIsOneLine | scripts/_generate_api_c_h.py:1341-1365 | after a break, the lines of a paragraph become one line with a single blank for each line end |
| RustTypes.ReadsEveryType | scripts/_generate_api_c_h.py:1631-1647 | reading the text of any named, pointer, array or generic type, nested at will, finds exactly the generator's names that it holds by value |
| RustTypes.TupleHidesNames | scripts/_generate_api_c_h.py:1631-1647 | the text of a tuple yields no struct name, whatever it holds |
| RustTypes.ReferencesRead | scripts/_generate_api_c_h.py:1646-1647 | the text of a reference to any path is read as nothing if the path has one segment and as the path itself otherwise; nothing is read if and only if it has one segment or its last one lacks the prefix |
| RustTypes.LastSegmentRead | scripts/_generate_api_c_h.py:1546-1547 | the base name of a path is its last segment |
| RustTypes.ArrayRead | scripts/_generate_api_c_h.py:1624-1628 | the array pattern cuts a rendered array at its own length, not at that of an inner array |
| StructOrder.OrderStructItems | scripts/_generate_api_c_h.py:1650-1679 | the loops return a permutation arranged as below |
| StructOrder.OneRound | scripts/_generate_api_c_h.py:1664-1678 | one turn of the outer loop, with the fallback exactly when nothing was emitted |
| StructOrder.SweepIsExact | scripts/_generate_api_c_h.py:1665-1671 | a sweep emits exactly the items whose every need was emitted before it or is emitted in it for an earlier item |
| StructOrder.SweepKeepsOrder | scripts/_generate_api_c_h.py:1665-1671 | and appends them in source order |
| StructOrder.DependencyTable | scripts/_generate_api_c_h.py:1651-1659 | what each item needs of the others |
| StructOrder.NeedsAreExact | scripts/_generate_api_c_h.py:1653-1659 | an item needs exactly the other listed names that one of its fields holds by value, and never itself |
| StructOrder.OrderingEndsIff | scripts/_generate_api_c_h.py:1663-1678 | the outer loop ends if and only if the names are distinct |
| StructOrder.TwinsLoopForever | scripts/_generate_api_c_h.py:1663-1678 | on two items of one name no number of rounds is enough |
| StructOrder.DedupeItems | scripts/_generate_api_c_h.py:538-549 | the loop keeps the first declaration of each kind and name |
| StructOrder.DedupedKeepsFirst | scripts/_generate_api_c_h.py:538-549 | exactly the first declaration of each kind and name is kept, in source order |
| StructOrder.DedupedNames | scripts/_generate_api_c_h.py:538-549 | after it, struct and union names are the declared ones, and distinct if and only if no name is declared both as struct and as union |
| StructOrder.HeaderOrderingEndsIff | scripts/_generate_api_c_h.py:1803-1811 | for a whole header the ordering ends if and only if no name is declared both as struct and as union |
| StructOrder.FinishedIsArranged | scripts/_generate_api_c_h.py:1650-1679 | the items before the fallback come after all they need and are exactly those that need no cycle; the others keep source order; the whole is a permutation |
| StructOrder.AcyclicIsFullyOrdered | scripts/_generate_api_c_h.py:1672-1678 | every item comes after all it needs if and only if no item needs a cycle |

## Left out

- The native engine and every cgo wrapper: handles are objects with a record of the calls made on them.
- The scenario (chain) API, the administrative calls and the observers; they add callers, not protocol.
- Clocks, idle windows, slow-submit thresholds and scan cadence: idleness is a nondeterministic choice.
- Eventual progress under fair scheduling: that the awaited step is enabled, and that a good continuation always exists, is shown instead.
- Dispatcher steps are functions on values, so that lemmas about runs can use them; the classes in `Queue.dfy` and `Strategy.dfy` cover the update in place of each critical section, not two of them running at once.
- `runExclusive` and the submit retry loops have no method of their own: their loops block on other goroutines and are program counters of the transition system.
- `runtime.Goexit` inside a release, which the source documents as unsupported.
- Key serialization of releases after a stop has been signalled: the source promises it only until then.
- Idle tracking is always on in the model; a strategy built without it is the same system without the idle scan.
- Sharded lanes that carry several keys: lanes that all exist at the start stand for shards with one key each; the ungated sends of Sharded are modelled in `SubmitFence.dfy`.
- The unsynchronised read of `mandatoryQueued` that lets a producer or a worker skip the backlog mutex: a skipped look is the same as one made before the enqueue.
- Four mergers of neighbouring actions in the dispatcher: `pending` with the counter or backlog change of the same producer under the gate, `pending` with the append under the backlog's mutex, the closing of stopCh with the count that follows it (apart in `SubmitFence.dfy`), and the look at the hard-stop flag with the receive or take before it.
- Exclusive.ExclusiveHolds: covers runs without a racy seal; `Exclusive.ExclusiveHoldsIff` is the exact statement for all runs.
- Exclusive.KeysAreSerial: covers runs without a racy seal; `Exclusive.KeysAreSerialIff` is the exact statement for all runs.
- Order.ReleasedEngineIsIdle: covers runs without a racy check; `Order.ReleasedEngineLeavesLate` is the exact statement for all runs.
- Places.CleanReleaseIsLast: covers runs without a racy check, which lets submits on behind the closed fence; `Places.StoppedReleaseWaits` says for all runs what the release waits for.
- SubmitFence.CleanRunsNeverPanic: covers runs without a late look, because a late look breaks the promise; `SubmitFence.LateLookCanPanic` is the converse.
- StructOrder.OrderStructItems: requires distinct names, because the loop does not end otherwise.
- RustTypes.ReadsEveryType: covers paths, pointers, arrays with a plain length and generics as the formatter prints them, with ASCII word characters; `RustTypes.TupleHidesNames` and `RustTypes.ReferencesRead` say how tuples and references to paths are read, and function types are not modelled.
- Delimiters of more than one character in the splitter: no caller passes one.
- The rest of the header generator: parsing items, mapping types, rendering declarations and pages.
