# Teamagentica kernel and SDK: a verified model

This project models the parts of the Teamagentica kernel and plugin SDK whose
behaviour is about whole runs, and proves what they keep.  Code that updates an
object in place is modelled as a class whose methods are proved to make exactly
one transition of a specification; the theorems are about that specification,
over every run, every graph or every text.

| files | what they model |
|---|---|
| `PoolModel.dfy`, `PoolSafety.dfy`, `PoolLimits.dfy`, `Pool.dfy` | the pool of warm Claude CLI processes, at the granularity of its lock |
| `Plugins.dfy`, `BootOrder.dfy`, `Graph.dfy` | which plugins are started at boot and in which order, with the deadlock breaker |
| `CandidateModel.dfy`, `CandidateRuns.dfy`, `TableRuns.dfy`, `Kernel.dfy` | blue/green deployment: one row as a state machine, and the handlers and monitor over the whole table |
| `EnablePlugin.dfy` | enabling a plugin with its dependencies, a search that aborts on the first error |
| `SyncPlugin.dfy`, `SyncRuns.dfy` | installing and upgrading from manifests, a search that swallows the errors of dependencies |
| `MediaMarkers.dfy`, `Relay.dfy`, `RelayRuns.dfy` | media markers, and their resolution in streamed chunks |
| `AgentStream.dfy`, `AgentFrames.dfy` | the server-sent events between agents and callers: one writer, two readers |
| `RateLimit.dfy` | the fixed-window rate limiter |
| `DeltaStream.dfy` | turning cumulative CLI snapshots into deltas |
| `Outbox.dfy`, `OutboxRuns.dfy` | the event client's outbox, at the granularity of its lock |
| `Wrappers.dfy`, `Sequences.dfy` | the option type, and a fact about sequences |

`dafny verify dfyconfig.toml` checks the whole project.

## How to read it

A name ending in `Step`, and `Enable`, `Sync`, `Read`, `Emit` and the like, is
the specification of one operation; the method of the same purpose is proved
equal to it; `Exec`, `Run` and `Entries` chain steps into runs.  The lemmas say
what each specification does without using its definition: over whole runs,
as an equivalence, or by a second description.  What is not
decided by the code modelled - whether a container starts, what a provider
answers, which process dies, when a thread runs, what the clock says - is a
parameter of the event or of the world, so a theorem holds for every choice.

In `OneOwnerPerProcess` and its like the only thing asked of the environment is
that a generated UUID is new and that a warm-up takes its steps in order.
`Faithful` in `AgentStream` is the assumption on the JSON library: encoding
gives an object on one line and decoding undoes it.  It holds for text that is
valid UTF-8.  `BrokenStreamIsPrefix` asks besides that no part of an object is
itself an object.

## Where the code differs from what it says

* Auto-enabling at boot means to pick up metadata-only plugins, but its query
  looks at the image column alone, so it also enables a plugin whose images are
  in container specs (`AutoEnableLooksAtImageOnly`).
* The expansion of dependencies at boot is one level deep; the list
  is complete exactly when the providers added get by with what is there (`ExpansionIsOneLevel`).
* A candidate does not affect the primary only as long as no previous image is
  recorded; with one, a rollback reaches the plugin in service
  (`RollbackAfterPromoteInterferes`).
* A candidate registration does not say which container it comes from, so the
  host promoted need not be that of the container promoted
  (`PromotedContainerNeedNotBeRoutedTo`).
* The unhealthy counter belongs to the plugin and not to the candidate: a new
  one gets four checks of its own exactly if the counter is zero
  (`NewCandidateInheritsCounter`).
* A rollback that cannot start the previous image leaves a stopped candidate in
  its slot, which can then be promoted (`OnlyFailedRollbackRecordsStopped`,
  `StoppedCandidateCanBePromoted`, `FailedRollbackIsReached`), and a plugin
  without an image of its own cannot be rolled back at all
  (`RollbackNeedsAnImage`).
* A first install that fails after creating the record makes every retry fail
  with a conflict (`InstallOutcome`, `FailedInstallBlocksRetry`).
* The capability query of an upgrade compares text, so a longer capability in
  an earlier row hides the row that offers the one looked for
  (`QueryIsRightExactlyWhen`, `LongerCapabilityShadows`).
* The partial marker that is held back does not include a single trailing brace
  (`ChunksAgreeWithWhole`, `OpenerCanBeCut`).
* The reply of a streamed call lists the attachments of the chunks again for
  every marker that its final text has too (`AttachmentsAreListedAgain`).
* Unescaping each chunk by itself can leave an at sign too many
  (`MessagesSpellTheText`, `PairCanBeCut`).
* A final answer that has attachments or usage but no text is lost to callers of
  the collecting reader (`WordlessAnswerIsLost`, `ReadersAgreeExactlyWhen`).
* A final event whose details cannot be decoded ends the call of the collecting
  reader and reaches the streaming one as an empty final event; an end marker
  stops the streaming reader alone (`UndecodableFinalEvent`,
  `MarkerEndsTheStream`, `MarkerIsSkipped`).
* An event published after the bus came up overtakes what is still waiting for
  the flush (`OvertakesExactlyWhen`, `PublishCanOvertake`).
* MarkDead comes too late when the reaper or a cycle has removed the entry, and
  hits a healthy process when another request has replaced the dead one
  (`MarkDeadDropsTheSession`, `MarkDeadDoesWhatIsMeant`).
* Racing warm-ups can exceed the hot target, though not the maximum
  (`OvershootExactlyWhen`, `RacingWarmUpsOvershoot`).
* Acquire starts processes on a pool that has been shut down
  (`ShutdownEndsEverything`).
* A kernel without a container runtime loses track of the containers it drops
  (`StepKeepsContainers`).

## Model

| member | source | states |
|---|---|---|
| PoolSafety.OneOwnerPerProcess | pkg/claudecli/pool.go:97-341 | in every reachable state, under any interleaving of operations, deaths and any number of warm-ups: a process has at most one owner (active entry, position in the hot list, warm-up in flight); sessions is injective; an active entry, the sessions map and the process agree on the session id; no hot or in-flight process carries an assigned session; two live processes never share a session |
| PoolSafety.NoProcessLeaks | pkg/claudecli/pool.go:255-341 | in every reachable state each live process is in active, in hot or held by a warm-up, and hot is within the configured maximum |
| PoolModel.StepKeepsInv | pkg/claudecli/pool.go:97-341 | each critical section, and the death of a process at any time, keeps the ownership, session and size invariant |
| PoolModel.RunKeepsInv | pkg/claudecli/pool.go:97-341 | so does every run |
| PoolSafety.OwnersAreUnique | pkg/claudecli/pool.go:30-50 | two owners of one process are the same owner |
| PoolSafety.LiveSessionsDiffer | pkg/claudecli/pool.go:87-151 | two live processes never carry the same session id |
| PoolSafety.MaxSizeIsFixed | pkg/claudecli/pool.go:61-83 | no run changes the maximum size |
| PoolSafety.ShutdownIsForever | pkg/claudecli/pool.go:178-198 | once the pool is shut down, hot stays empty however the run goes on |
| PoolSafety.WarmUpAfterShutdown | pkg/claudecli/pool.go:307-341 | after a shutdown every warm-up in flight kills the process it started and ends, and changes nothing else |
| PoolSafety.KillAllLeavesWarmUps | pkg/claudecli/pool.go:178-230 | of the live processes, Shutdown and Cycle leave exactly those a warm-up still holds, and forget no session |
| PoolSafety.StopsEverything | pkg/claudecli/pool.go:178-230 | Shutdown and Cycle of an open pool empty active and hot, kill everything but what warm-ups in flight hold, and keep sessions and warm-ups; on a closed pool they do nothing |
| PoolSafety.CycleRenews | pkg/claudecli/pool.go:200-230 | however a run goes on after a cycle, every process handed out was started after the cycle or was held by a warm-up in flight when it happened |
| PoolSafety.AcquireStartsOnlyWhenItMust | pkg/claudecli/pool.go:97-151 | a process is started exactly if the conversation has no live one and either has a session to resume or finds no live hot process; otherwise the conversation's own or the last live hot process is handed out and nothing is started |
| PoolSafety.AcquireLeavesOthersAlone | pkg/claudecli/pool.go:97-151 | the entries of all other conversations stay as they are |
| PoolSafety.AcquireKillsNothing | pkg/claudecli/pool.go:97-151 | nothing is killed and no warm-up is touched |
| PoolSafety.AcquireAsksForWarmUp | pkg/claudecli/pool.go:133-150 | a warm-up is asked for exactly when a process went to a new conversation and at most one is left in hot |
| PoolSafety.ReaperForgetsTheDead | pkg/claudecli/pool.go:255-279 | reaping leaves exactly the live entries, as they were, and the live hot processes |
| PoolSafety.ReaperIsInvisible | pkg/claudecli/pool.go:255-279 | an Acquire gets the same process of the same session whether or not the reaper ran before it |
| PoolSafety.LivingJoins | pkg/claudecli/pool.go:268-278 | compaction keeps the order |
| PoolSafety.NothingDead | pkg/claudecli/pool.go:268-278 | compaction changes a list exactly if something in it is dead |
| PoolSafety.MarkDeadLeavesOthersAlone | pkg/claudecli/pool.go:166-175 | MarkDead removes one entry and one session and kills at most the process of that entry |
| PoolSafety.LastUsedIs | pkg/claudecli/pool.go:97-161 | in every run an entry bears the time of the last Acquire or Release of its conversation |
| PoolSafety.AcquireHandsOutTheSession | pkg/claudecli/pool.go:97-151 | Acquire hands out a live process of the session recorded for the conversation, keeps an existing session, touches no other conversation, and succeeds whenever a process can be started |
| PoolSafety.SessionSurvives | pkg/claudecli/pool.go:97-230 | no run without MarkDead(c) changes the session of c |
| PoolSafety.ConversationContinuity | pkg/claudecli/pool.go:97-230 | after Acquire(c) assigned a session, any run without MarkDead(c), even with cycles, reaping, deaths and other conversations, is followed by an Acquire(c) that, if it succeeds, carries the same session |
| PoolSafety.MarkDeadDropsTheSession | pkg/claudecli/pool.go:166-175 | in every state of the invariant, whether or not the entry is still there: the next successful Acquire(c) resumes the old session if and only if MarkDead(c) found no active entry |
| PoolSafety.MarkDeadDoesWhatIsMeant | pkg/claudecli/pool.go:166-175 | MarkDead drops the session and kills no live process if and only if the entry is still that of a dead process; it kills a live one exactly if the entry is live |
| PoolLimits.ReaperForestallsMarkDead | pkg/claudecli/pool.go:166-175 | a run in which the reaper removes the entry before MarkDead is called, and the session is resumed |
| PoolLimits.MarkDeadHitsTheSuccessor | pkg/claudecli/pool.go:166-175 | a run in which another Acquire comes before MarkDead, which then kills the healthy process |
| PoolLimits.OvershootExactlyWhen | pkg/claudecli/pool.go:307-341 | from any reachable state, and until a warm-up reads the need again, the target of two hot processes can be exceeded if and only if the pool is open, its maximum is above two, and the hot processes with what the warm-ups in flight have left to start are more than two |
| PoolLimits.RunKeepsLoad | pkg/claudecli/pool.go:307-341 | that sum never grows without another reading of the need |
| PoolLimits.TargetHoldsFromTheStart | pkg/claudecli/pool.go:307-341 | runs in which a warm-up reads the need only when no other is in flight keep the target |
| PoolLimits.TargetHoldsWithoutRaces | pkg/claudecli/pool.go:307-341 | so do they from any state within the target |
| PoolLimits.RacingWarmUpsOvershoot | pkg/claudecli/pool.go:307-341 | some run exceeds the target if and only if the configured maximum is not the target itself |
| PoolLimits.HotReachesItsMaximum | pkg/claudecli/pool.go:307-341 | the sizes the hot list has in some run are exactly those up to the configured maximum, which is ten if less than two was asked for |
| PoolLimits.WarmUpAdds | pkg/claudecli/pool.go:307-341 | a warm-up with nothing else going on adds, in order, the processes it has started - as many as were missing unless a start fails, none to a pool that is closed or has enough - and ends |
| PoolLimits.TurnedAway | pkg/claudecli/pool.go:328-340 | a process a warm-up brings joins the end of the hot list exactly if the pool is open and has room; otherwise it is killed and the warm-up ends |
| PoolLimits.ShutdownEndsEverything | pkg/claudecli/pool.go:97-198 | after a shutdown, once the warm-ups in flight have ended, a process lives only if it was acquired since; Acquire does start one on a closed pool |
| PoolModel.PopHotIs | pkg/claudecli/pool.go:120-135 | Acquire takes the last live process of hot and drops exactly the dead ones after it |
| PoolModel.LivingIs | pkg/claudecli/pool.go:268-278 | compaction keeps exactly the live processes |
| Pool.Pool.constructor | pkg/claudecli/pool.go:61-83 | an empty pool; a maximum below the hot size becomes ten |
| Pool.Pool.StartWithSession | pkg/claudecli/pool.go:87-93 | starts a process with the given session, or nothing |
| Pool.Pool.Acquire | pkg/claudecli/pool.go:97-151 | exactly the transition AcquireStep, and whether a warm-up is started |
| Pool.Pool.Release | pkg/claudecli/pool.go:155-161 | exactly ReleaseStep |
| Pool.Pool.MarkDead | pkg/claudecli/pool.go:166-175 | exactly MarkDeadStep |
| Pool.Pool.KillAll | pkg/claudecli/pool.go:184-197 | the loops of Shutdown and Cycle: every active and hot process killed, both collections emptied, sessions kept |
| Pool.Pool.Shutdown | pkg/claudecli/pool.go:178-198 | exactly ShutdownStep; a second call does nothing |
| Pool.Pool.Cycle | pkg/claudecli/pool.go:203-230 | exactly CycleStep; a warm-up follows unless the pool is closed |
| Pool.Pool.ReapIdle | pkg/claudecli/pool.go:255-279 | exactly ReapStep: dead entries go, the hot slice is compacted in order |
| Pool.Pool.WarmRead | pkg/claudecli/pool.go:307-318 | first critical section of a warm-up |
| Pool.Pool.WarmStart | pkg/claudecli/pool.go:319-327 | starting one process outside the lock |
| Pool.Pool.WarmFinish | pkg/claudecli/pool.go:328-340 | second critical section: append, or kill when closed or full |
| BootOrder.StartAll | kernel/internal/orchestrator/orchestrator.go:112-213 | the boot loop, on any dependency graph: every plugin is started exactly once, in at most as many passes as there are plugins; unless forced, none is started before the provider of each of its known dependencies was started and waited for, and all become ready; none is held back while others are started and waited for unless it was blocked then; the forced plugins each wait for one another; and force is used if and only if the plugins with a container wait for each other in a cycle |
| BootOrder.StartEnabledPlugins | kernel/internal/orchestrator/orchestrator.go:82-217 | the whole boot: all the guarantees of the boot loop for the enabled rows with one level of dependencies added |
| BootOrder.StuckIsTrapped | kernel/internal/orchestrator/orchestrator.go:198-213 | when a pass makes no progress, each plugin left depends on a plugin left |
| BootOrder.ForceKeeps | kernel/internal/orchestrator/orchestrator.go:198-213 | so what is force-started contains a dependency cycle, and everything ends up started once |
| BootOrder.PassKeeps | kernel/internal/orchestrator/orchestrator.go:130-197 | one pass keeps the loop invariant: order, exactly-once starts, and a rank that witnesses acyclicity of what is ready |
| BootOrder.EveryEventIsTimely | kernel/internal/orchestrator/orchestrator.go:136-195 | in a well-ordered trace every single start comes after the readiness of its providers |
| BootOrder.AllReadyIsAcyclic | kernel/internal/orchestrator/orchestrator.go:112-197 | if the loop gets everything ready without force, the waiting graph has no cycle |
| BootOrder.SplitQueue | kernel/internal/orchestrator/orchestrator.go:133-186 | the inner loop sorts a queue into metadata-only plugins, batch and deferred, updating what counts as healthy on the way |
| BootOrder.RunBatch | kernel/internal/orchestrator/orchestrator.go:187-197 | a batch is started, then each member waited for |
| BootOrder.ForceStartAll | kernel/internal/orchestrator/orchestrator.go:199-213 | the deadlock breaker starts everything left |
| BootOrder.AllMet | kernel/internal/orchestrator/orchestrator.go:146-158 | a dependency counts as met when it is unknown or its provider is healthy |
| BootOrder.CollectProviders | kernel/internal/orchestrator/orchestrator.go:112-118 | of several providers of a capability the last one counts |
| BootOrder.LastProviderCounts | kernel/internal/orchestrator/orchestrator.go:112-118 | the provider of a capability is the last row that has it |
| BootOrder.LooksAtTheReady | kernel/internal/orchestrator/orchestrator.go:133-164 | in a pass, a plugin joins the batch exactly if its known dependencies are ready, counting the metadata-only plugins before it in the queue |
| BootOrder.PassKeepsEager | kernel/internal/orchestrator/orchestrator.go:130-197 | one pass holds nobody back needlessly |
| BootOrder.ProvidersAre | kernel/internal/orchestrator/orchestrator.go:112-118 | the capability map names plugins of the list that have the capability, and every offered capability |
| BootOrder.ResolveDependencies | kernel/internal/orchestrator/orchestrator.go:721-753 | the loop computes the specified list |
| BootOrder.ResolvedDependencies | kernel/internal/orchestrator/orchestrator.go:721-753 | the list to boot extends the given one, without duplicates, by the current provider of each dependency and nothing else |
| BootOrder.ExpansionIsOneLevel | kernel/internal/orchestrator/orchestrator.go:721-753 | for every table: the list to boot holds the provider of every known dependency of its members if and only if the providers the enabled plugins depend on get by with enabled plugins and each other |
| BootOrder.ExpansionCanFallShort | kernel/internal/orchestrator/orchestrator.go:721-753 | a table for which it does not |
| BootOrder.EnabledAtBootIs | kernel/internal/orchestrator/orchestrator.go:88-99 | the rows booted are those enabled or with an empty image column |
| BootOrder.AutoEnableLooksAtImageOnly | kernel/internal/orchestrator/orchestrator.go:88-92 | the query matches the metadata-only plugins among the disabled ones except exactly those whose images are in container specs |
| Graph.TrappedSetHasCycle | kernel/internal/orchestrator/orchestrator.go:198-213 | pigeonhole: a non-empty set each of whose members depends on a member contains a dependency cycle |
| Graph.BackEdgeClosesCycle | kernel/internal/handlers/plugins.go:511-517 | a dependency on a plugin still being enabled closes a cycle |
| Graph.RankedIsAcyclic | kernel/internal/orchestrator/orchestrator.go:112-213 | a rank that drops along every dependency rules out cycles |
| CandidateModel.CandidateDoesNotInterfere | kernel/internal/handlers/deploy.go:14-211 | in any run in which no promotion is accepted and no rollback comes, with a runtime, while a previous image is recorded, deleting all deployments, promotions, rollbacks, candidate registrations, candidate heartbeats and checks leaves the rest of the row, and so every routing target, as it is |
| CandidateModel.NothingReachesWithoutPromotion | kernel/internal/handlers/deploy.go:14-211 | for a plugin without previous image it is enough that no promotion is accepted |
| CandidateModel.RollbackAfterPromoteInterferes | kernel/internal/handlers/deploy.go:213-258 | a rollback leaves routing alone exactly when no previous image is recorded |
| CandidateModel.PromoteRoutesToCandidate | kernel/internal/handlers/deploy.go:108-165 | a promotion is accepted exactly with a candidate container and a registered host; then traffic goes to that host, the container takes the place of the one in service, and the slot is empty |
| CandidateRuns.BlueGreenReplaces | kernel/internal/handlers/deploy.go:17-165 | deploy, register, promote from a row without candidate: exactly the container, image, version and host deployed are in service, the image and version before are on record, the slot is empty and the old container stopped |
| CandidateRuns.PromotionMovesTheCandidate | kernel/internal/handlers/deploy.go:129-156 | an accepted promotion of any row takes over image and version of the candidate and puts the old ones away |
| CandidateRuns.RollbackUndoesDeploy | kernel/internal/handlers/deploy.go:188-211 | whatever has been done to candidates of a plugin never promoted, a rollback of the occupied slot gives back the very row there was |
| CandidateRuns.RollbackStartsAfresh | kernel/internal/handlers/deploy.go:213-258 | a rollback of a promotion starts the previous image, stops both containers named, and is not routed to until the plugin registers |
| CandidateRuns.FailedRollbackCanBeRetried | kernel/internal/handlers/deploy.go:230-238 | when the previous image does not start the plugin is off the air, and a second rollback does what the first would have done |
| CandidateRuns.DeployReplies | kernel/internal/handlers/deploy.go:17-103 | each refusal of a deployment, its reason and its order; a refusal changes nothing |
| CandidateRuns.EmptySlotIs | kernel/internal/handlers/deploy.go:192-202 | clearing the candidate empties all its columns and no other |
| CandidateRuns.HeardCandidateSurvives | kernel/internal/health/monitor.go:299-341 | a registered candidate heard of at most 90 seconds before each check keeps its slot, and the first such check clears the counter |
| CandidateRuns.HealthIsTheLastWord | kernel/internal/health/monitor.go:313-320 | a check marks the candidate unhealthy exactly when it finds it stale, a heartbeat makes it healthy |
| CandidateRuns.RegisteredIsRoutedTo | kernel/internal/handlers/plugin_registration.go:155-188 | in every run that leaves its address alone a plugin is routed to where it registered last, until it deregisters |
| CandidateRuns.DeregisteredIsNotRoutedTo | kernel/internal/handlers/plugin_registration.go:340-370 | after that it is not routed to, whatever heartbeats arrive |
| CandidateRuns.LastSeenIs | kernel/internal/handlers/plugin_registration.go:303-337 | the row says when the plugin in service was last heard of, whatever happens to candidates |
| CandidateModel.LastRegistrationIsRoutedTo | kernel/internal/handlers/plugin_registration.go:155-176 | the host routed to is that of the last candidate registration, whoever sent it |
| CandidateModel.PromotedContainerNeedNotBeRoutedTo | kernel/internal/handlers/plugin_registration.go:155-176 | a run in which a container that has been rolled back registers late and gets the traffic when its successor is promoted |
| CandidateModel.NoContainerIsLost | kernel/internal/handlers/deploy.go:41-258 | over any run nothing is recorded or stopped that was not started and the two slots never hold the same container; every container ever started is recorded in the row or was stopped if and only if no step abandons one, and with a container runtime none does |
| CandidateModel.StepKeepsContainers | kernel/internal/handlers/deploy.go:41-258 | a step keeps that conservation law if and only if it does not drop the id of a container not yet stopped, which only a kernel without a runtime does |
| CandidateModel.DeployNeedsEmptySlot | kernel/internal/handlers/deploy.go:41-47 | a deployment never overwrites an occupied slot |
| CandidateModel.OnlyFailedRollbackRecordsStopped | kernel/internal/handlers/deploy.go:213-238 | the row comes to name a stopped container exactly when a rollback to the previous image fails while a candidate is deployed |
| CandidateModel.RunningUnlessRollbackFails | kernel/internal/handlers/deploy.go:41-258 | in runs without such a failure every recorded container is running |
| CandidateModel.StoppedCandidateCanBePromoted | kernel/internal/handlers/deploy.go:213-238 | after such a failure the stopped candidate can be promoted, and is then routed to, exactly if it had registered |
| CandidateModel.FailedRollbackIsReached | kernel/internal/handlers/deploy.go:17-258 | a run from a row without candidate that ends in routing to a stopped container |
| CandidateModel.RollbackUndoesPromote | kernel/internal/handlers/deploy.go:133-258 | a promotion followed by anything but an accepted promotion or rollback is undone by the next successful rollback: image and version are those before the promotion, no candidate and no previous version remain |
| CandidateModel.PreviousSurvives | kernel/internal/handlers/deploy.go:133-156 | such a run keeps the recorded previous image and version |
| CandidateModel.RollbackNeedsAnImage | kernel/internal/handlers/deploy.go:133-195 | right after a promotion a rollback is accepted exactly if the image column was not empty |
| CandidateModel.CounterIsHistory | kernel/internal/health/monitor.go:299-341 | in every reachable state a registered candidate has a non-zero last-seen time and the counter is the number of stale checks in a row, below four |
| CandidateModel.StepKeepsCounter | kernel/internal/health/monitor.go:299-341 | each step keeps that |
| CandidateModel.StaleRunIs | kernel/internal/health/monitor.go:320-333 | the counted run is the maximal run of stale checks at the end of the history |
| CandidateModel.AutoRollbackAfterFourStaleChecks | kernel/internal/health/monitor.go:293-356 | a check rolls back exactly when it and the three checks before it found the candidate stale; only candidate columns change, and its container is stopped |
| CandidateModel.SilentCandidateSurvives | kernel/internal/health/monitor.go:320-341 | a registered candidate that falls silent outlives n stale checks if and only if n and the counter together stay below four, whatever else happens to the plugin in service |
| CandidateModel.RolledBackByTheCheckThat | kernel/internal/health/monitor.go:320-341 | the check that rolls it back is the one that brings the counter to four |
| CandidateModel.NewCandidateInheritsCounter | kernel/internal/health/monitor.go:320-341 | the counter belongs to the plugin: a candidate that registers gets four stale checks of its own if and only if the counter is zero then, that is, if the last check did not count against a candidate |
| CandidateModel.CounterOutlivesTheCandidate | kernel/internal/health/monitor.go:320-341 | a run in which a replacement is rolled back by its first stale check |
| Kernel.Kernel.DeployCandidate | kernel/internal/handlers/deploy.go:17-103 | exactly DeployStep on this plugin, no other plugin touched, and the reply for each refusal |
| Kernel.Kernel.PromoteCandidate | kernel/internal/handlers/deploy.go:108-165 | exactly PromoteStep |
| Kernel.Kernel.RollbackCandidate | kernel/internal/handlers/deploy.go:172-267 | exactly RollbackStep |
| Kernel.Kernel.RestorePrevious | kernel/internal/handlers/deploy.go:213-258 | its part that brings back the previous image |
| Kernel.Kernel.SelfRegister | kernel/internal/handlers/plugin_registration.go:132-188 | exactly the candidate or the primary registration step; an empty host or unknown plugin changes nothing |
| Kernel.Kernel.Heartbeat | kernel/internal/handlers/plugin_registration.go:303-337 | exactly HeartbeatStep, and when the plugin is told to register again |
| Kernel.Kernel.Deregister | kernel/internal/handlers/plugin_registration.go:340-370 | exactly DeregisterStep |
| Kernel.Kernel.RouteToPlugin | kernel/internal/handlers/plugin_registration.go:444-467 | the target the row gives |
| Kernel.Kernel.AutoRollbackCandidate | kernel/internal/health/monitor.go:345-356 | exactly AutoRollbackStep |
| Kernel.Kernel.StaleCandidate | kernel/internal/health/monitor.go:313-329 | the branch for a stale heartbeat |
| Kernel.Kernel.MarkStale | kernel/internal/health/monitor.go:314-320 | marks the row unhealthy and counts the check |
| Kernel.Kernel.CheckOne | kernel/internal/health/monitor.go:306-333 | exactly CheckStep |
| Kernel.Kernel.CheckCandidates | kernel/internal/health/monitor.go:299-341 | every plugin makes exactly its check step, whatever the order of the rows |
| Kernel.Kernel.ForgetCounters | kernel/internal/health/monitor.go:335-340 | drops the counters of plugins without a registered candidate |
| TableRuns.TableRunsApart | kernel/internal/handlers/deploy.go:17-267 | in a run of the whole table the state of each plugin is that of its own events |
| TableRuns.CandidatesDisturbNobody | kernel/internal/handlers/deploy.go:14-211 | as long as nothing reaches a plugin in service, erasing every candidate event of every plugin and all passes of the monitor changes no route of any plugin |
| TableRuns.NoContainerIsLostOrShared | kernel/internal/handlers/deploy.go:41-258 | in every run of the table with a container runtime every container started is recorded or was stopped, and none is recorded for two plugins |
| TableRuns.TableRunKeepsContainers | kernel/internal/handlers/deploy.go:41-258 | the invariant behind that |
| Kernel.Kernel.BecameIsTableStep | kernel/internal/handlers/deploy.go:17-267 | what a handler does is a step of the whole table |
| Kernel.Kernel.PassIsTableStep | kernel/internal/health/monitor.go:299-341 | and so is a pass of the monitor |
| EnablePlugin.Handler.EnableOne | kernel/internal/handlers/plugins.go:511-610 | the recursive method computes the specified search, on any graph, and terminates |
| EnablePlugin.Handler.LaunchOne | kernel/internal/handlers/plugins.go:549-608 | the last step: enable the row, after starting its container if it has one |
| EnablePlugin.Handler.FindProvider | kernel/internal/handlers/plugins.go:530-545 | the first row with the capability |
| EnablePlugin.Handler.EnablePlugin | kernel/internal/handlers/plugins.go:470-507 | the request: an unknown id changes nothing, otherwise the search runs with an empty visited map and list |
| EnablePlugin.EachAtMostOnce | kernel/internal/handlers/plugins.go:511-610 | whatever the graph and the runtime: no plugin is enabled or started twice, none that was running is touched, exactly the listed ones become enabled with the container started for them, and on an error they stay enabled |
| EnablePlugin.EverythingNeededIsUp | kernel/internal/handlers/plugins.go:511-548 | after a success the plugin is listed unless it was running, and the first provider of each dependency of a listed plugin is listed or was running, cycles or not |
| EnablePlugin.OrderedExactlyWithoutCycle | kernel/internal/handlers/plugins.go:511-610 | a success lists every newly enabled plugin after the providers it depends on, as far as they were not running already, if and only if the plugins of the dependency closure that are not running have no cycle among them |
| EnablePlugin.OrderedWithoutCycle | kernel/internal/handlers/plugins.go:511-610 | without such a cycle whatever has been enabled is in that order, also when the call has failed |
| EnablePlugin.OrderedIfAcyclic | kernel/internal/handlers/plugins.go:511-610 | in particular whenever the first-provider graph of the table has no cycle |
| EnablePlugin.AbortOrders | kernel/internal/handlers/plugins.go:511-610 | the search from any point, when it fails: it has ordered what it added or met a cycle |
| EnablePlugin.VisitedIsClosure | kernel/internal/handlers/plugins.go:511-548 | the search never leaves the dependency closure, told from the table alone, and a success visits exactly it and lists exactly its members that were not running |
| EnablePlugin.ClosureIsLeast | kernel/internal/handlers/plugins.go:527-548 | the closure is the least set with the plugin in it that is closed under the first providers of members not running |
| EnablePlugin.SucceedsExactlyWhen | kernel/internal/handlers/plugins.go:527-590 | the call succeeds if and only if every plugin of the closure that is not running has its capabilities provided and can be started |
| EnablePlugin.MutualDependencyIsEnabled | kernel/internal/handlers/plugins.go:511-517 | two plugins that need each other are both enabled, the dependency first |
| EnablePlugin.EnableOrders | kernel/internal/handlers/plugins.go:511-610 | the search from any point: it orders what it adds or exhibits a cycle through the calls in progress |
| EnablePlugin.EnableAccounts | kernel/internal/handlers/plugins.go:511-610 | the bookkeeping of the search from any point |
| EnablePlugin.EnableBlames | kernel/internal/handlers/plugins.go:544-590 | a failure is due to a visited plugin that lacks a provider or could not be started |
| EnablePlugin.OrderLeavesNoCycle | kernel/internal/handlers/plugins.go:511-610 | an ordered list has no dependency cycle |
| EnablePlugin.FirstProvider | kernel/internal/handlers/plugins.go:530-545 | the provider returned is a row with the capability; none means there is none |
| EnablePlugin.FirstProviderIs | kernel/internal/handlers/plugins.go:530-545 | it is the first row with the capability |
| EnablePlugin.ErrorIsTrue | kernel/internal/handlers/plugins.go:527-590 | the error of a failed call names a capability that a visited plugin needs and nobody has, or the plugin that was started last and did not start |
| SyncPlugin.Marketplace.SyncPlugin | kernel/internal/handlers/marketplace.go:596-644 | the recursive method computes the specified search in install and in upgrade mode and terminates on cyclic dependencies over a finite catalog |
| SyncPlugin.Marketplace.ApplyManifest | kernel/internal/handlers/marketplace.go:647-838 | the row is rewritten from the manifest in one write at the end, or not at all; it fails exactly on a missing manifest, invalid containers or a refused write |
| SyncPlugin.Marketplace.CheckContainers | kernel/internal/handlers/marketplace.go:793-818 | containers are accepted exactly if there are none, or all are named, have a valid role and one is the api |
| SyncPlugin.Marketplace.FindProviderPlugin | kernel/internal/handlers/marketplace.go:842-865 | the first catalog entry whose manifest offers the capability |
| SyncPlugin.Marketplace.FindDependency | kernel/internal/handlers/marketplace.go:611-637 | the record a dependency is synced on, bootstrapped if need be |
| SyncPlugin.Marketplace.InstallPlugin | kernel/internal/handlers/marketplace.go:497-574 | the install request with each of its refusals |
| SyncPlugin.Marketplace.UpgradePlugin | kernel/internal/handlers/marketplace.go:674-720 | the upgrade request |
| SyncPlugin.ListIsWhatWasApplied | kernel/internal/handlers/marketplace.go:596-644 | the installed list has no id twice and holds exactly the visited plugins whose manifest was fetched and applied, as they are stored; every other record is as before or newly bare |
| SyncPlugin.InstallReachesTheClosure | kernel/internal/handlers/marketplace.go:608-641 | an install visits exactly the least set that contains the plugin and is closed under going on to the catalog's first provider of each dependency |
| SyncPlugin.InstallCreatesTheClosure | kernel/internal/handlers/marketplace.go:608-641 | the records created are the visited plugins that were missing; those whose manifest does not apply stay bare; records not reached are untouched |
| SyncPlugin.FailsOnlyForTheRoot | kernel/internal/handlers/marketplace.go:596-644 | an error is returned exactly if the root's own manifest cannot be fetched or applied, and then the table is unchanged |
| SyncPlugin.InstallOutcome | kernel/internal/handlers/marketplace.go:497-556 | a first install fails on the manifest, leaving the bare record, or is done, exactly when provider, catalog entry and record are there and the manifest cannot, or can, be applied |
| SyncPlugin.FailedInstallBlocksRetry | kernel/internal/handlers/marketplace.go:497-556 | after a first install that was not done, every later attempt is refused as a conflict if and only if the record had been created |
| SyncPlugin.UpgradeReachesTheMatches | kernel/internal/handlers/marketplace.go:626-640 | an upgrade stays among the rows there are and, as long as no manifest changes capabilities, visits exactly the least set that contains the plugin and is closed under going on to the first matching row |
| SyncPlugin.MatchesExactlyWhen | kernel/internal/handlers/marketplace.go:632 | a row matches the capability query if and only if some capability of it contains the one looked for |
| SyncPlugin.QueryIsRightExactlyWhen | kernel/internal/handlers/marketplace.go:632 | the query finds the first row that offers the capability if and only if no row before it has one that merely contains it |
| SyncPlugin.LongerCapabilityShadows | kernel/internal/handlers/marketplace.go:632 | a table in which it does not, for every capability |
| SyncPlugin.FirstMatch | kernel/internal/handlers/marketplace.go:632 | the row found matches; none means that none does |
| SyncPlugin.UpgradeCreatesNothing | kernel/internal/handlers/marketplace.go:626-634 | an upgrade creates no record |
| SyncPlugin.SyncKeepsInv | kernel/internal/handlers/marketplace.go:596-644 | the search from any point keeps the relation of list, visited map and table |
| SyncPlugin.SyncCloses | kernel/internal/handlers/marketplace.go:608-641 | what is visited and finished has all its providers visited |
| SyncPlugin.SyncStaysWithin | kernel/internal/handlers/marketplace.go:608-641 | the search never leaves a closed set |
| SyncPlugin.FirstOffer | kernel/internal/handlers/marketplace.go:848-863 | the entry returned offers the capability; none means that none does |
| SyncRuns.FirstOfferIs | kernel/internal/handlers/marketplace.go:848-863 | it is the first entry whose manifest lists the capability |
| SyncRuns.EntryOfIs | kernel/internal/handlers/marketplace.go:536-544 | the entry bootstrapped is the first with the id |
| SyncRuns.InstallSettlesTheClosure | kernel/internal/handlers/marketplace.go:497-644 | an install that is done has bootstrapped the record and settled exactly the dependency closure: records made for what was missing, every manifest that applies applied and listed once, the plugin asked for first, all else untouched |
| SyncRuns.UpgradeSettlesTheMatches | kernel/internal/handlers/marketplace.go:626-720 | an upgrade that is done has created nothing and settled rows of the table; as long as no manifest changes capabilities, exactly those reached by first matches |
| SyncRuns.UpgradingAgainChangesNothing | kernel/internal/handlers/marketplace.go:674-720 | then a second upgrade changes nothing |
| SyncRuns.InstallReplies | kernel/internal/handlers/marketplace.go:497-556 | each refusal of an install, its reason and its order |
| SyncRuns.UpgradeReplies | kernel/internal/handlers/marketplace.go:674-720 | an upgrade is done, refused or failed exactly when; unless done it changes nothing |
| SyncRuns.AppliedIs | kernel/internal/handlers/marketplace.go:724-838 | applying a manifest is the only change that makes a record carry the manifest and keeps the rest |
| SyncRuns.SkipsOnlyEmptyManifests | kernel/internal/handlers/marketplace.go:830-838 | the write is skipped exactly for manifests that change no record |
| SyncRuns.ContainersAreAccepted | kernel/internal/handlers/marketplace.go:793-818 | containers are accepted exactly if there are none, or all are named, with a known role, and one and no other is the api |
| SyncRuns.AppliesExactlyWhen | kernel/internal/handlers/marketplace.go:647-838 | a manifest is applied exactly if it can be fetched, its containers are accepted, and it can be written or changes nothing |
| Relay.ChunksAgreeWithWhole | plugins/infra-agent-relay/main.go:1006-1080 | for every well-formed text, tokenisation and placement of tool events: the cleaned chunks put together are the cleaned text if and only if no flush sees a buffer ending between the two braces of an opener, and then the attachments agree as multisets |
| Relay.ChunksAreTheTokens | plugins/infra-agent-relay/main.go:1006-1080 | the texts handed to emitChunk always concatenate to exactly the tokens received |
| Relay.MessagesSpellTheText | plugins/infra-agent-relay/main.go:1006-1080 | the published messages spell the unescaped whole text if and only if no flush cuts an opener and no pair of at signs falls across two chunks |
| Relay.RunPublishes | plugins/infra-agent-relay/main.go:1006-1062 | what is published is the unescaped cleaned chunks, in order |
| Relay.UnescapeSeam | plugins/infra-agent-relay/main.go:1021 | unescaping two pieces differs from unescaping their concatenation exactly where a pair is cut, by one sign |
| Relay.ReplyIs | plugins/infra-agent-relay/main.go:1076-1100 | for every stream without an error: the reply is the resolved and trimmed text of the last Done event or, if that is empty or missing, of all tokens, with the attachments of that event, of the chunks and of the final text |
| Relay.AttachmentsAreListedAgain | plugins/infra-agent-relay/main.go:1076-1100 | the attachments streamed are listed once in all if and only if the final text has none, and twice if and only if it has the same ones, as when it is the text streamed |
| Relay.BufferIsShort | plugins/infra-agent-relay/main.go:1029-1062 | between events the buffer is below the maximum or is an unterminated marker |
| Relay.OpenerCanBeCut | plugins/infra-agent-relay/media_markers.go:99-108 | 499 plain bytes and half an opener fill the buffer: the cut does happen |
| Relay.PairCanBeCut | plugins/infra-agent-relay/main.go:1006-1041 | 499 plain bytes and the first of two at signs fill the buffer: the pair is cut, and the messages published differ from the unescaped text |
| Relay.CutNeedsBrace | plugins/infra-agent-relay/media_markers.go:99-108 | only a text with an opening brace can have an opener cut |
| Relay.CutShows | plugins/infra-agent-relay/media_markers.go:99-108 | a cut leaves a brace in the published text |
| Relay.SplitItems | plugins/infra-agent-relay/media_markers.go:99-108 | a buffer that starts a well-formed text is split between items or inside a plain one, unless it ends in half an opener |
| RelayRuns.FailsExactlyWhen | plugins/infra-agent-relay/main.go:1071-1072 | a stream fails exactly if it has an error event: with the message of the first, and having published what the events before it had |
| RelayRuns.NoticesAreTheTools | plugins/infra-agent-relay/main.go:1051-1066 | each tool call and each tool result is announced once, in order, results with an error as such, and nothing else is |
| RelayRuns.ToolCallFollowsTheText | plugins/infra-agent-relay/main.go:1051-1057 | a tool call is announced after the text before it, but for what is too short to be sent or an open marker |
| RelayRuns.ReplySaysSo | plugins/infra-agent-relay/main.go:1022-1099 | the reply says that chunks were emitted exactly if one was published |
| RelayRuns.ShortTextIsOneChunk | plugins/infra-agent-relay/main.go:1029-1080 | a text shorter than 500 bytes, or 50 if a tool is called, goes out whole at the end |
| RelayRuns.LongTextGoesOut | plugins/infra-agent-relay/main.go:1043-1049 | with 500 bytes pending and no opening brace among them all of it goes out |
| RelayRuns.UnescapeUndoesDoubling | plugins/infra-agent-relay/main.go:1021 | unescaping undoes the doubling of at signs |
| Relay.Track | plugins/infra-agent-relay/main.go:1043-1074 | after any prefix of the stream: what went out resolves to the first items and the buffer starts the others |
| Relay.RunConserves | plugins/infra-agent-relay/main.go:1043-1074 | chunks and buffer together are the tokens so far |
| Relay.Chunker.EmitChunk | plugins/infra-agent-relay/main.go:1006-1027 | exactly Emit |
| Relay.Chunker.FlushChunk | plugins/infra-agent-relay/main.go:1029-1041 | exactly Flush |
| Relay.Chunker.OnEvent | plugins/infra-agent-relay/main.go:1043-1074 | exactly one step of the loop |
| Relay.Chunker.CallAgentStream | plugins/infra-agent-relay/main.go:989-1101 | the whole call: an error event ends it with what was published so far; otherwise the last flush and the reply, made of the last Done event or of the full text |
| MediaMarkers.ResolveMediaMarkers | plugins/infra-agent-relay/media_markers.go:33-93 | the two passes compute the specified resolution |
| MediaMarkers.ReplacePass | plugins/infra-agent-relay/media_markers.go:24-49 | one pass removes every leftmost match of the expression and collects the bodies in order |
| MediaMarkers.ResolveWellFormed | plugins/infra-agent-relay/media_markers.go:33-93 | a well-formed text resolves to its plain text and one attachment per marker that decodes, media markers first |
| MediaMarkers.MediaKeepsUrl | plugins/infra-agent-relay/media_markers.go:24-27 | the first expression does not match the other kind of marker |
| MediaMarkers.RemovesMarker | plugins/infra-agent-relay/media_markers.go:24-49 | a complete marker is removed and its body kept |
| MediaMarkers.ResolveKeepsLastBrace | plugins/infra-agent-relay/media_markers.go:33-93 | a text that ends in an opening brace still does after resolution |
| MediaMarkers.SplitConserves | plugins/infra-agent-relay/media_markers.go:99-108 | safe and held part together are the text; what is held starts with an opener, has no closer and no later opener; nothing is held only if the last opener is closed |
| MediaMarkers.MatchHere | plugins/infra-agent-relay/media_markers.go:24-27 | a match starts with the opener, has a body and ends in a closing brace |
| MediaMarkers.MatchIsShortest | plugins/infra-agent-relay/media_markers.go:24-27 | the match is the shortest body that is not empty, has no line break and is followed by two closing braces |
| AgentStream.ReaderUndoesWriter | pkg/pluginsdk/agent_client.go:112-139 | for every sequence of events with heartbeats anywhere, reading what was written gives back the events that could be encoded, up to the first whose line exceeds the scanner's buffer |
| AgentStream.RoundTrip | pkg/pluginsdk/agent_client.go:112-153 | exactly the events sent come out if and only if each can be encoded and fits |
| AgentStream.BrokenStreamIsPrefix | pkg/pluginsdk/agent_client.go:112-153 | wherever the text is cut off, even inside an event, the events read are the first of those that would have been read |
| AgentStream.InferenceIsExact | pkg/pluginsdk/agent_client.go:257-289 | without an event line the event is recovered if and only if its discriminating fields are not empty |
| AgentStream.BareRoundTrip | pkg/pluginsdk/agent_client.go:112-139 | a whole stream without event lines is recovered if and only if each event is told by its fields |
| AgentStream.Infers | pkg/pluginsdk/agent_client.go:257-289 | what each event is taken for otherwise: lost, or another kind |
| AgentStream.ParsesBack | pkg/pluginsdk/agent_client.go:219-253 | with its event line every event is parsed back |
| AgentStream.ChatReadsTheAnswer | pkg/pluginsdk/agent_client.go:50-86 | the collecting reader returns the last non-empty response of the events sent, with merged extras, or the first error |
| AgentStream.WordlessAnswerIsLost | pkg/pluginsdk/agent_client.go:184-216 | a final event by itself reaches a caller of the collecting reader as sent if and only if it has a response or nothing else |
| AgentStream.ReadersAgreeExactlyWhen | pkg/pluginsdk/agent_client.go:50-86 | for every stream, the exact condition under which the collecting reader returns the last final event that the streaming reader delivers |
| AgentStream.AmountIs | pkg/pluginsdk/agent_client.go:58-86 | the collecting call fails exactly on a fatal event, and otherwise has the last response that is not empty and the merged extras |
| AgentFrames.AnyFramingIsRead | pkg/pluginsdk/agent_client.go:112-139 | for streams of any producer: an event line names the kind of the one data line after it and of no other, data without one is told by its fields, carriage returns do not matter |
| AgentFrames.WriterIsAProducer | pkg/pluginsdk/agent_handler.go:49-80 | the SDK's writer is such a producer: it names each kind and sends a blank line after each event |
| AgentFrames.ServedIs | pkg/pluginsdk/agent_handler.go:49-67 | the inputs served are exactly those before the request is cancelled |
| AgentFrames.KindsAreKnown | pkg/pluginsdk/agent_client.go:219-253 | data of an unknown kind is dropped |
| AgentFrames.BareDataIsTakenFor | pkg/pluginsdk/agent_client.go:257-289 | which kind data without an event line is taken for, whatever fields it has |
| AgentFrames.ReadersClassifyAlike | pkg/pluginsdk/agent_client.go:184-216 | both readers take such data for the same kind |
| AgentFrames.MarkerEndsTheStream | pkg/pluginsdk/agent_client.go:131-133 | the streaming reader stops at the end marker, whatever follows |
| AgentFrames.MarkerIsSkipped | pkg/pluginsdk/agent_client.go:188-191 | the collecting reader goes on behind it |
| AgentFrames.UndecodableFinalEvent | pkg/pluginsdk/agent_client.go:67-71 | a final event whose details cannot be decoded is passed on empty by one reader and ends the call of the other with an error |
| AgentFrames.CallerLearnsOfTheBreak | pkg/pluginsdk/agent_client.go:112-153 | wherever the connection breaks, the caller gets the first of the events expected and then one error event exactly if the connection broke or a line was too long and the caller had not gone away |
| AgentFrames.ChatReadsWhatIsExpected | pkg/pluginsdk/agent_client.go:50-86 | for all events, also those that cannot be encoded or are too long: the collecting call returns what the events expected amount to, or the first error of the agent, the reading or the connection |
| AgentStream.AgentChatStream | pkg/pluginsdk/agent_client.go:102-153 | the scan loop delivers what the text says, then an error event after an over-long line or a broken connection unless the caller has gone |
| AgentStream.AgentChat | pkg/pluginsdk/agent_client.go:58-86 | the collecting loop computes the specified answer |
| AgentStream.FindBreak | pkg/pluginsdk/agent_client.go:174-178 | the end of the first line |
| AgentStream.BreakAt | pkg/pluginsdk/agent_client.go:174-178 | there is no line break before it |
| AgentStream.ResponseWriter.AgentChatHandler | pkg/pluginsdk/agent_handler.go:49-67 | the select loop writes the events and heartbeats chosen before the request is cancelled, in that order |
| AgentStream.ResponseWriter.WriteAgentSSE | pkg/pluginsdk/agent_handler.go:72-80 | one event, or nothing if it cannot be encoded |
| RateLimit.RateLimiter.Middleware | kernel/internal/middleware/ratelimit.go:52-78 | exactly the specified step |
| RateLimit.RateLimiter.Clean | kernel/internal/middleware/ratelimit.go:36-49 | removes exactly the expired entries |
| RateLimit.CleanupChangesNoDecision | kernel/internal/middleware/ratelimit.go:36-49 | a request gets the same answer whether or not cleanups ran before it |
| RateLimit.AtMostLimitPerWindow | kernel/internal/middleware/ratelimit.go:52-78 | from one window start of an address to the next at most max(limit, 1) of its requests are admitted |
| RateLimit.WindowsAreApart | kernel/internal/middleware/ratelimit.go:57-66 | consecutive windows start more than a window apart |
| RateLimit.FewerThanTwiceTheLimit | kernel/internal/middleware/ratelimit.go:52-78 | in any interval no longer than the window at most 2 * max(limit, 1) - 1 are admitted |
| RateLimit.BoundIsSharp | kernel/internal/middleware/ratelimit.go:52-78 | and that many can be |
| RateLimit.WithinWindow | kernel/internal/middleware/ratelimit.go:52-78 | while a window lasts its entry counts at least the requests admitted in it |
| RateLimit.AdmittedExactlyWhen | kernel/internal/middleware/ratelimit.go:52-78 | every request belongs to a window and is admitted if and only if it opens it or is among the first limit requests made in it |
| RateLimit.OthersDoNotMatter | kernel/internal/middleware/ratelimit.go:52-78 | what other addresses do changes neither the entry of an address nor whether it is admitted |
| RateLimit.CleanupBoundsTheTable | kernel/internal/middleware/ratelimit.go:36-49 | right after a cleanup only addresses that made a request within the window have an entry |
| DeltaStream.DeltasReassembleTheResult | pkg/claudecli/process.go:203-309 | the text events concatenate to the result if and only if the non-empty snapshots and the non-empty result form a prefix chain |
| DeltaStream.LinesTrack | pkg/claudecli/process.go:203-259 | after any lines the text emitted is the last snapshot, preceded by something exactly if the chain is broken |
| DeltaStream.DeltaStep | pkg/claudecli/process.go:246-258 | emitting one delta keeps that |
| DeltaStream.LinesShow | pkg/claudecli/process.go:203-259 | besides text the stream carries one event for every model and every tool named, in order, no text event is empty, and the model of the reply is the last one named |
| DeltaStream.ResultShows | pkg/claudecli/process.go:262-309 | a result adds text at most and the usage as the last event |
| DeltaStream.Process.SendMessage | pkg/claudecli/process.go:173-324 | reply, events and liveness for a failed write, an error result, a result and a stream that ends without one |
| DeltaStream.Process.StreamBlocks | pkg/claudecli/process.go:239-259 | the blocks of one assistant line |
| Outbox.ExactlyOnce | pkg/pluginsdk/eventclient.go:51-140 | under every interleaving each submitted message is at exactly one position: in the outbox, with one thread, or handed to publish once; and nothing else is anywhere |
| Outbox.FirstFlushEmptiesForGood | pkg/pluginsdk/eventclient.go:51-140 | after the first flush has taken the outbox it stays empty |
| Outbox.FlushKeepsSubmissionOrder | pkg/pluginsdk/eventclient.go:127-140 | a flush takes messages in submission order and hands them over in that order |
| Outbox.OvertakesExactlyWhen | pkg/pluginsdk/eventclient.go:93-140 | in every reachable state with the bus available, a message published and handed over at once overtakes an earlier one if and only if something is in the outbox or some thread has something to hand over |
| Outbox.InOrderExactlyWhen | pkg/pluginsdk/eventclient.go:93-140 | a run hands messages over as they were submitted if and only if whoever hands one over takes the oldest that is left |
| Outbox.PatientRunsKeepOrder | pkg/pluginsdk/eventclient.go:93-140 | runs in which every message published after the bus came up finds all others handed over keep submission order |
| Outbox.AllPublished | pkg/pluginsdk/eventclient.go:93-140 | everything submitted has been handed over exactly if the counts agree |
| Outbox.PublishCanOvertake | pkg/pluginsdk/eventclient.go:93-140 | a run in which a message overtakes one still waiting for the flush |
| Outbox.StepKeepsInv | pkg/pluginsdk/eventclient.go:51-140 | each critical section keeps the location invariant |
| Outbox.RunKeepsInv | pkg/pluginsdk/eventclient.go:51-140 | so does every run |
| Outbox.SlotIsUnique | pkg/pluginsdk/eventclient.go:93-140 | a message is never at two positions |
| OutboxRuns.EveryCallIsKept | pkg/pluginsdk/eventclient.go:51-140 | told from the calls made: under every interleaving each message, with the type, detail and destination given, is at exactly one position and nothing else is anywhere |
| OutboxRuns.QueuedInOrder | pkg/pluginsdk/eventclient.go:93-124 | until the bus is available nothing is handed over and everything waits in the order of the calls |
| OutboxRuns.NothingGetsStuck | pkg/pluginsdk/eventclient.go:51-140 | once the bus has come up and every thread has done its work, each message has been handed over, once |
| Outbox.EventClient.constructor | pkg/pluginsdk/eventclient.go:43-48 | not ready, nothing queued |
| Outbox.EventClient.PublishTo | pkg/pluginsdk/eventclient.go:93-124 | queues exactly if the bus is not available |
| Outbox.EventClient.OnBusAvailable | pkg/pluginsdk/eventclient.go:51-61 | the callback up to leaving the lock |
| Outbox.EventClient.TakeOutbox | pkg/pluginsdk/eventclient.go:127-131 | the flush takes everything under the lock |
| Outbox.EventClient.HandOver | pkg/pluginsdk/eventclient.go:137-139 | one call of publish |

## Left out

- HTTP, gin, GORM, Docker, JSON, YAML, OAuth and subprocess I/O: libraries; their answers are parameters.
- Races between kernel handlers on one row: a handler, and the monitor's treatment of one row, is one atomic step; only the pool and the outbox are modelled at lock granularity.
- The clock: times are parameters, nondecreasing where that matters (rate limiter); reaping by idle time does not occur in the code modelled.
- Process objects: a process is an index into the table of processes started, with a set of those still marked alive; flags never come back on.  The kill that ends a warm-up is part of its last step.
- Disable, Uninstall, Restart, dev mode, pods stopped by name, managed containers, disk mounts, and the monitor's checks of primaries and restarts: they lean on runtime code not modelled here.
- Container names: a candidate and a stable container could clash on a name inside the runtime, which is not part of this model.
- Kernel.Kernel.SelfRegister: does not model the other columns a primary registration writes (gRPC port, capabilities, schemas, pricing), host validation or the broadcast that follows.
- EnablePlugin.Handler.EnablePlugin: does not model the shared-disk override of the request or a kernel without a runtime.
- SyncPlugin.Marketplace.ApplyManifest: sums up the manifest fields that neither the search nor the checks look at (name, config schema, disks, labels, ports, scopes) as one flag.
- SyncPlugin.Marketplace.FindDependency: the LIKE query of an upgrade is substring containment in the stored JSON text, without its wildcards, its case folding and JSON escapes; the order of the ids is a parameter; catalog and manifests are taken as not changing during one request.
- Relay.Chunker.CallAgentStream: does not model the usage and cost columns of the reply or the retries around the call; which white space is trimmed is a parameter.
- MediaMarkers.ResolveMediaMarkers: what a body decodes to (MIME types, base64, URL parsing) is a parameter, and text is a sequence of bytes.
- Relay.ChunksAgreeWithWhole: is about texts whose plain parts hold no brace and whose markers have a non-empty body without brace or line break; for other texts only `ChunksAreTheTokens` and `BufferIsShort` speak.
- AgentStream.AgentChat: merging the extras of several final events is key by key, where the JSON library merges nested objects.
- AgentStream.ResponseWriter.AgentChatHandler: request parsing, headers and the timer are left out; which case of the select fires is the input.
- DeltaStream.Process.SendMessage: does not model the usage figures of the result line or the wording of the errors.
- Outbox.EventClient.HandOver: what publish does with a message (marshalling, the call to the bus, its errors) is left out, as are subscriptions.
- The peer cache of the SDK, the TypeScript client, the mem0 server, prompt templates, authentication and certificates.
