# Verification of the sandbox provisioner, run delivery and organisation sync

A Dafny 4.11 model of four parts of the repository whose correctness no finite set of schedules can
settle, with proofs that hold for every run, every input and every interleaving. `dafny verify
dfyconfig.toml` checks the whole project.

Objects that the source updates in place are classes here. Each of their methods is proved equal to
a function of the old state, and the theorems about whole runs are lemmas about those functions.
All lemmas carry `{:induction false}`: their bodies are their proofs.

## What is modelled

**Sandbox lifecycle** (`docker/sandbox_provisioner/app.py`). Any number of threads create, proxy,
get, touch, delete, reap and quiesce, sharing two condition variables, the inventory and the
activity table. `OperationPins`, `Inventory` and `Provisioner` hold the classes; `Lifecycle` the
transition system, one step per critical section, in which the blocking calls of a proxied request
queue for the workers of the event loop's default executor; `LifecycleInvariant`, `LifecyclePool`,
`LifecycleProgress`, `LifecycleQuiescence`, `LifecycleCreation`, `LifecycleAnswers`, `LifecycleCrew`,
`LifecycleExclusion`, `LifecycleOverlap` and `LifecycleStarvation` what is true of every execution, and
`LifecycleReach` which states follow another.

**Provisioner arithmetic** (the same file). Choosing a free aligned block (section 3.1 of RFC 4632)
in a retry loop, admitting instances under a limit, and polling under a deadline: `Multiples`,
`Counting`, `Subnets`, `Capacity`, `Readiness`.

**Run-event delivery** (`web/src/composables`). An incremental server-sent-event parser (section
9.2.6 of the WHATWG HTML Living Standard, with the departures of the source: `trimStart`, the id
reset on every event, a dispatch at the end of the stream), the sequence fence with reconnections,
the settling of finished runs, and the paced text buffer with segments as in section 3 of Unicode
Standard Annex #29: `Sse`, `SseConnection`, `RunDelivery`, `RunPipeline`, `Settlement`,
`TextPacing`, `StreamSmoother`, `PlaybackRate`.

**Organisation sync** (`backend/scripts`). A planner over a department tree, the executor that
replays its plan on the table, the same for users, and the dry run: `Stripping`, `DepartmentTree`,
`DepartmentPlan`, `DepartmentSync`, `DepartmentReplay`, `DepartmentNamesakes`, `UserPlan`,
`UserReplay`, `UserIdentities`, `UserNames`, `SyncRefusals`, `OaSync`, `DryRun`, `SyncOutcome`, `SyncRun`.

**Login rate limit** (`backend/server/main.py`): `LoginRateLimit`.

## Where the code does less than one might expect

Each of these is proved with the exact condition under which the code does meet the property.

- A proxied request waits for its pin on a worker of the default executor (`app.py:2440`), and then needs
  one for its sandbox (`app.py:2442`) and perhaps one for the name of the host it is sent to
  (`app.py:2475`). With W workers, W + 1 proxied requests and one delete stop the provisioner for good, from
  every start-up state; with at most W such jobs, waiting or running, some thread can always move.
  `Starving` is the only way to stop, and it never ends.
- Overlapping deletes of one sandbox lose the exclusion between deletes and operations, because
  `_deleting` is a set: over the window of a deleter exclusion holds exactly if no other deleter of the same
  sandbox calls `end_delete` in it (`LifecycleExclusion.ExclusionIff`), whatever happens to other sandboxes or
  happened before. `LifecycleOverlap` shows that from every overlap a pinned sandbox can be reached that a
  deleter owns, unless a holder of a pin waits while there are more jobs than workers, and that two delete
  requests suffice for an overlap, at any time.
- With a lock per sandbox, k concurrent creations may end k - 1 above a limit; the bound is reached.
- `startRunStream` sets the fence to the id it is given, and a resume reads that id before it waits. A run
  consumes every event once and in order, whatever follows, exactly as long as every start is given the id
  of the last event consumed; a stale resume repeats an event, and a reconnection between a reset and the
  start that belongs to it leaves events out.
- A connection that is closed in order between the data line and the id line of an event makes the
  page consume the event twice. `SseConnection.CloseDeliversAPrefixIff` and
  `RunPipeline.ClosedSubscriptionIff` say exactly when; every message of every answer can be torn so.
- A delivery keeps to the log exactly if its subscription is not ahead of the cursor.
- The live conversation holds of every run exactly what was handled of it since the last wipe. Wipes are the
  page's own (a bare reset, a start from scratch, an answer, a message sent while nothing streams) and the
  callback of a settlement that fires while no run or its own run is active; a run that is active for the
  first time and was not interrupted has no such callback.
- A start that wipes nothing and is given an id below an event that is held makes that event come again: a
  thread holds each event once, and goes on to, exactly if no start has lowered the fence so. An accepted
  request whose run a resume has found already is such a start (`AgentChatComponent.vue:3718-3721`).
- A thread streams without an active run exactly between a message or an answer sent while no run is
  active and the step that starts a run or stops the streaming.
- A resume that finds a run ended after another took over stops the other's subscription.
- A rejected login that waits as long as it was told gets in exactly if less than a second of the
  window was left.
- The planner keys a department to be created under itself (`migrate_oa_departments.py:108`), so a plan has
  a conflict exactly if some department finds its row taken by another code or identity, or is called like
  a parent that is itself to be created.
- A conflict-free department plan is refused by the database exactly if another row carries a code
  or an identity that the plan is about to write, as when a department was moved; a conflict-free
  user plan exactly if a deleted user still holds a name or an identity, because soft deletion keeps
  the `uid`. The dry run reports neither.
- An identity is joined with colons and nothing is escaped: two companies can give out the same one exactly if
  the code of one goes on, after a colon, where the other ends (`UserIdentities.CompaniesClashIff`).

## Model

| member | source | states |
|---|---|---|
| OperationPins.SandboxOperationPins.TryAcquire | docker/sandbox_provisioner/app.py:489-495 | a caller is admitted, and counted, exactly while the sandbox is not marked for deletion |
| OperationPins.SandboxOperationPins.Release | docker/sandbox_provisioner/app.py:497-504 | the count falls by one; waiters are notified exactly when the last pin goes |
| OperationPins.SandboxOperationPins.MarkDeleting | docker/sandbox_provisioner/app.py:506-508 | the mark is set before the deleter waits |
| OperationPins.SandboxOperationPins.TryDrained | docker/sandbox_provisioner/app.py:509-510 | the deleter goes on exactly when nobody holds a pin |
| OperationPins.SandboxOperationPins.EndDelete | docker/sandbox_provisioner/app.py:512-515 | the mark is taken away, whoever else set it |
| OperationPins.SandboxQuiescenceGate.Start | docker/sandbox_provisioner/app.py:524-527 | creations are refused from here on; nothing ever opens the gate again |
| OperationPins.SandboxQuiescenceGate.TryIdle | docker/sandbox_provisioner/app.py:528-529 | `begin` returns exactly when no creation is in flight |
| OperationPins.SandboxQuiescenceGate.TryAcquireCreate | docker/sandbox_provisioner/app.py:531-536 | a creation is admitted, and counted, exactly before the gate is closed |
| OperationPins.SandboxQuiescenceGate.ReleaseCreate | docker/sandbox_provisioner/app.py:538-544 | the last creation notifies whoever waits for the gate |
| Inventory.MemoryProvisionerBackend.Create | docker/sandbox_provisioner/app.py:561-594 | a known sandbox is returned as it is exactly if it is asked for with its own work directory, and else refused, and nothing changes; a new one is the only change, with the work directory asked for and a generation that no record has |
| Inventory.MemoryProvisionerBackend.Discover | docker/sandbox_provisioner/app.py:596-598 | finds exactly the live record |
| Inventory.MemoryProvisionerBackend.Delete | docker/sandbox_provisioner/app.py:604-617 | a fence that names another generation is refused and changes nothing |
| Inventory.SandboxIdleReaper.constructor | docker/sandbox_provisioner/app.py:2032-2057 | an idle timeout that does not outlast one command is raised above it, and nothing else is changed |
| Inventory.SandboxIdleReaper.Touch | docker/sandbox_provisioner/app.py:2058-2066 | the time and the generation of the activity are written together; a touch that names no generation keeps the one known |
| Inventory.SandboxIdleReaper.SeedExisting | docker/sandbox_provisioner/app.py:2079-2091 | every live record without activity is given some, and activity that is there is left alone |
| Inventory.SandboxIdleReaper.Forget | docker/sandbox_provisioner/app.py:2068-2077 | a fenced forget leaves another generation's activity alone |
| Inventory.SandboxIdleReaper.CollectExpired | docker/sandbox_provisioner/app.py:2093-2102 | exactly the entries older than the timeout, each with its generation; none when the reaper is off |
| Inventory.SandboxIdleReaper.Recheck | docker/sandbox_provisioner/app.py:2107-2111 | a deletion goes on exactly if the entry is still there, still of that generation and still expired |
| Provisioner.SandboxProvisioner.OperationStep | docker/sandbox_provisioner/app.py:2205-2293 | the objects change as one step of create, get, touch or proxy in the transition system |
| Provisioner.SandboxProvisioner.BackendCall | docker/sandbox_provisioner/app.py:2205-2268 | the call under the pin is the matching step of the transition system |
| Provisioner.SandboxProvisioner.DeletionStep | docker/sandbox_provisioner/app.py:2312-2424 | the objects change as one step of a delete request, a reaper pass, a quiescing worker or `begin` |
| Provisioner.SandboxProvisioner.RemovalStep | docker/sandbox_provisioner/app.py:2104-2118 | past `begin_delete` the objects change as one step of a deleter: the recheck of the reaper, the removal, the forgetting |
| Provisioner.SandboxProvisioner.BackendDelete | docker/sandbox_provisioner/app.py:604-617 | the inventory loses the record exactly if the call works and the fence agrees |
| Provisioner.SandboxProvisioner.constructor | docker/sandbox_provisioner/app.py:2032-2057 | a provisioner that starts with nothing is an initial state |
| LifecycleInvariant.ExecutionKeepsInv | docker/sandbox_provisioner/app.py:483-544 | in every state of every execution pins and gate count exactly their holders, every mark has a deleter, parked threads still wait, the closed gate is respected and generations are fresh and distinct |
| LifecycleInvariant.HolderIsCounted | docker/sandbox_provisioner/app.py:489-504 | whoever holds a pin or is in flight is counted, so a release never finds zero |
| LifecycleProgress.NoLostWakeups | docker/sandbox_provisioner/app.py:486-544 | in every reachable state what a parked thread waits for has not happened |
| LifecyclePool.PoolAlwaysSound | docker/sandbox_provisioner/app.py:2440-2442 | in every state of every execution the queue of the default executor holds exactly the jobs that wait, each once, and no more workers are taken than there are |
| LifecyclePool.StarvationIsForever | docker/sandbox_provisioner/app.py:2440-2442 | once every worker waits for a deletion that waits for a queued job, no waiting job ever gets a worker |
| LifecyclePool.StarvingTakesOneMore | docker/sandbox_provisioner/app.py:2440-2442 | starving takes more proxied requests in the pool than there are workers |
| LifecycleProgress.NoDeadlockUnlessStarving | docker/sandbox_provisioner/app.py:2210-2475 | in every reachable state with an unfinished thread some thread has a step that is not a timeout, or the workers starve |
| LifecycleProgress.NoDeadlock | docker/sandbox_provisioner/app.py:2210-2475 | with at most as many jobs of the default executor, for pins, sandboxes and host names, waiting or running, as there are workers, some thread has a step that is not a timeout |
| LifecycleStarvation.OneTooManyStarves | docker/sandbox_provisioner/app.py:2426-2442 | from every start-up state, one proxied request more than there are workers and one delete of any sandbox lead to a state where nothing moves |
| LifecycleStarvation.StarvedDeletesNeverRun | docker/sandbox_provisioner/app.py:506-515 | a sandbox that a starved worker waits for is never owned by a deleter again |
| LifecycleQuiescence.QuiescenceIsFinal | docker/sandbox_provisioner/app.py:2312-2346 | once `quiesce_sandboxes` has returned ok the inventory is empty and no creation is in flight in every later state of every interleaving |
| LifecycleQuiescence.NoCreationPastTheGate | docker/sandbox_provisioner/app.py:518-544 | after `begin` returns no creation is in flight, before the listing starts |
| LifecycleQuiescence.RemovalIsFenced | docker/sandbox_provisioner/app.py:604-617 | the step that removes a generation belongs to a delete naming it or naming none |
| LifecycleQuiescence.GenerationFence | docker/sandbox_provisioner/app.py:2058-2118 | over whole runs, with any number of overlapping deleters, a generation leaves only through a delete naming it or naming none |
| LifecycleQuiescence.LaterGenerationsAreSpared | docker/sandbox_provisioner/app.py:2389-2406 | the reaper and quiescing never remove a generation created after they looked |
| LifecycleQuiescence.NoResurrection | docker/sandbox_provisioner/app.py:578-594 | a generation that is gone never comes back, under any name |
| LifecycleQuiescence.ForgetIsFenced | docker/sandbox_provisioner/app.py:2068-2077 | an activity entry is dropped only by a deletion of that sandbox whose fence agrees with the entry |
| LifecycleCreation.CreationReports | docker/sandbox_provisioner/app.py:561-594 | a creation reports the generation of the sandbox if it is there with that work directory, nothing if it is there with another, and else one that no record has; the inventory changes by that record at most |
| LifecycleCreation.CreationsAgree | docker/sandbox_provisioner/app.py:2205-2227 | over whole executions, two creations of a sandbox not removed between them report one generation for one work directory, and the second nothing for another |
| LifecycleAnswers.AnswersWereTrue | docker/sandbox_provisioner/app.py:2205-2293 | whatever generation an operation goes on with or reports, the inventory held it under that sandbox at the operation's own call |
| LifecycleAnswers.MissesHaveAReason | docker/sandbox_provisioner/app.py:2205-2293 | an operation answers that there is nothing only after a call that failed, found no such sandbox, or one with another work directory |
| LifecycleAnswers.DeleteCallAnswers | docker/sandbox_provisioner/app.py:604-617 | the call of a deleter removes that record and no other, unless it fails or names another generation; then nothing changes, and the activity is not forgotten |
| LifecycleAnswers.ReaperRechecks | docker/sandbox_provisioner/app.py:2104-2118 | the reaper goes on exactly if the entry is still there, of the generation it saw and idle for the whole timeout |
| LifecycleAnswers.ForgetsOnlyWhatIsGone | docker/sandbox_provisioner/app.py:2068-2118 | over whole executions, whoever forgets the activity of a sandbox has seen it out of the inventory, by a call of its own that was not refused |
| LifecycleAnswers.EntryIsLastActivityIff | docker/sandbox_provisioner/app.py:2058-2077 | in every state of every run an entry of the activity table is there, with its time and generation, exactly if that was recorded and no activity or forgetting came after |
| LifecycleCrew.DeletionsAreBounded | docker/sandbox_provisioner/app.py:2359-2366 | in every state of every execution a quiescing caller has at most the configured number of deletions running |
| LifecycleCrew.RoundsDoNotOverlap | docker/sandbox_provisioner/app.py:2312-2387 | a worker that has not finished belongs to the round its caller waits for, or to a caller that gave up after the worker had left the queue: every round is over before the next listing |
| LifecycleCrew.CallerMovesOn | docker/sandbox_provisioner/app.py:2319-2387 | a listing that finds nothing returns ok, one that finds records queues a worker for each, a finished round lists again, and giving up takes the caller's workers out of the queue |
| LifecycleCrew.DeletionsHaveAReason | docker/sandbox_provisioner/app.py:2093-2118 | whoever deletes has started for its reason: a request, an entry found idle for the whole timeout with its generation as the fence, a record listed with its generation as the fence |
| LifecycleCrew.TimeOnlyTicks | docker/sandbox_provisioner/app.py:2093-2109 | the clock that the reaper reads shows what has ticked, whatever else happens |
| LifecycleExclusion.DeletesExcludeOperations | docker/sandbox_provisioner/app.py:483-515 | while no other deleter of the same id has called `end_delete` in the window, nobody holds a pin between the return of `begin_delete` and `end_delete` |
| LifecycleExclusion.ExclusionIff | docker/sandbox_provisioner/app.py:489-515 | over the window of a deleter, no pin is added and none is left once it owns the sandbox, however each moment goes on, exactly if no other deleter of the id has called `end_delete` in the window |
| LifecycleExclusion.ExcludesIffGuarded | docker/sandbox_provisioner/app.py:489-515 | exclusion holds from a state on exactly if the sandbox is marked, and unpinned if the deleter owns it |
| LifecycleExclusion.PinsOnlyFallInAWindow | docker/sandbox_provisioner/app.py:497-515 | in such a window the count never rises and each release lowers it: a termination measure |
| LifecycleExclusion.ReaperSparesTheBusy | docker/sandbox_provisioner/app.py:2104-2118 | when the reaper removes a sandbox in such a window no operation is in flight on it and no touch made under a pin is later than the cutoff |
| LifecycleExclusion.CondemnedAtItsRecheck | docker/sandbox_provisioner/app.py:2107-2112 | that cutoff lies the whole idle timeout before the recheck |
| LifecycleOverlap.OverlapLosesExclusion | docker/sandbox_provisioner/app.py:506-515 | from any state with two overlapping deletes of one id a state can be reached where a deleter owns it and an operation holds a pin, if no holder of a pin on it waits for a worker or there are workers for all jobs |
| LifecycleOverlap.TwoDeleteRequestsOverlap | docker/sandbox_provisioner/app.py:2414-2424 | two delete requests can be brought to overlap from every state of every execution |
| Subnets.OverlapMeansSharedAddress | docker/sandbox_provisioner/app.py:926 | the overlap test holds exactly if some address lies in both blocks |
| Subnets.NestedOrDisjoint | docker/sandbox_provisioner/app.py:923-928 | aligned blocks are nested or disjoint |
| Subnets.ChoicesAreExhaustive | docker/sandbox_provisioner/app.py:923 | every aligned block of the prefix inside the pool is among the candidates |
| Subnets.ChoicesCounted | docker/sandbox_provisioner/app.py:923-929 | the candidates are exactly the blocks of the pool, and as many as the reported limit |
| Subnets.OverlapsAny | docker/sandbox_provisioner/app.py:924-927 | the inner test finds a clash exactly if there is one |
| Subnets.NextNetworkSubnet | docker/sandbox_provisioner/app.py:912-929 | the result is the first free block of the pool; a capacity error means that every block meets an unavailable one |
| Subnets.CapacityErrorIsExact | docker/sandbox_provisioner/app.py:929 | if only whole blocks of the pool are unavailable, a capacity error counts them exactly |
| Subnets.CreateNetwork | docker/sandbox_provisioner/app.py:936-965 | at most one attempt per block of the pool whatever the host answers, and the outcome is explained by the host's last answer or by a pool with no free block left |
| Capacity.CheckCapacity | docker/sandbox_provisioner/app.py:471-476 | a creation is admitted exactly below both limits, the total being tested first |
| Capacity.CapacityBound | docker/sandbox_provisioner/app.py:1185-1274 | with k creations at once live and admitted instances stay within the limit plus k - 1 |
| Capacity.UserCapacityBound | docker/sandbox_provisioner/app.py:1185-1274 | the same for every user |
| Capacity.OneAtATime | docker/sandbox_provisioner/app.py:1807-1850 | the lock around all creations admits one at a time |
| Capacity.LockedCapacityIsExact | docker/sandbox_provisioner/app.py:1807-1850 | under that lock no limit is ever exceeded |
| Capacity.LiveIff | docker/sandbox_provisioner/app.py:1185-1274 | in every run an instance is live, for a user, exactly if it has been inserted for that user and not deleted since |
| Capacity.CreatingIff | docker/sandbox_provisioner/app.py:1092-1274 | in every run a creation holds its lock exactly from its entry until it has inserted, given up, found the instance there or a limit reached |
| Capacity.BoundIsReached | docker/sandbox_provisioner/app.py:1092-1191 | with a lock per sandbox the bound is attained, for the total and for a user |
| Readiness.DelayDoublesToTheCeiling | docker/sandbox_provisioner/app.py:630-654 | the back-off doubles until its ceiling and stays in [0.05, 1.0] |
| Readiness.StartAdvances | docker/sandbox_provisioner/app.py:630-654 | time never passes the deadline, and each probe before it is at least 0.04 s after the one before |
| Readiness.StartsWhenDue | docker/sandbox_provisioner/app.py:646-654 | the next probe starts exactly the jittered delay after the answer, or not before the deadline |
| Readiness.AnsweredWhenItComes | docker/sandbox_provisioner/app.py:633-645 | an answer is waited for up to 3 s and to the deadline, and a probe succeeds exactly if it comes by then and is ready |
| Readiness.StartsAreClose | docker/sandbox_provisioner/app.py:630-654 | probes start at most 4.2 s apart |
| Readiness.FoundSoon | docker/sandbox_provisioner/app.py:620-654 | a sandbox that is ready from a moment on is found so within 4.2 s and its latency |
| Readiness.WaitForSandboxReady | docker/sandbox_provisioner/app.py:620-654 | ready is reported at the first probe that succeeds, failure exactly at the deadline, after at most timeout / 0.04 probes rounded up and at least timeout / 4.2; a sandbox that is ready from a moment on is found so within 4.2 s and its latency, if the deadline is later |
| LoginRateLimit.LoginRateLimiter.Attempt | backend/server/main.py:125-145 | one client's history and decision follow the limiter's function, no other client is touched |
| LoginRateLimit.LoginRateLimiter.Cleared | backend/server/main.py:147-149 | a success forgets one client's history and no other |
| LoginRateLimit.HistoryIsASuffix | backend/server/main.py:130-143 | the deque is always a sorted suffix of the admitted log, of length at most ten |
| LoginRateLimit.NoElevenInAWindow | backend/server/main.py:130-143 | the n-th and the (n+10)-th admitted attempt are more than 60 s apart |
| LoginRateLimit.RejectedIffTenInTheWindow | backend/server/main.py:132-141 | an attempt is turned away exactly if ten were admitted within the window before it |
| LoginRateLimit.RetryAfterIsRoundedDown | backend/server/main.py:135-141 | a rejected client is told the whole seconds, at least one, until the tenth last admitted attempt leaves the window |
| LoginRateLimit.RetryAfterSufficesIff | backend/server/main.py:135-141 | waiting as told suffices exactly if less than a second of the window was left |
| Sse.SseParser.Feed | web/src/composables/useAgentRunStream.js:92-120 | a chunk changes buffer, pending fields and events as the parser's function does |
| Sse.SseParser.HandleLine | web/src/composables/useAgentRunStream.js:99-119 | one complete line changes the pending event, or dispatches it |
| Sse.SseParser.Dispatch | web/src/composables/useAgentRunStream.js:80-89 | an event is delivered exactly if it has data lines, joined by newlines |
| Sse.SseParser.Finish | web/src/composables/useAgentRunStream.js:122 | the unterminated rest is dropped and what is pending is dispatched |
| Sse.FieldsMean | web/src/composables/useAgentRunStream.js:99-119 | a field line does what its name says for every value, the empty one included, with or without a carriage return at its end |
| Sse.OtherLinesMean | web/src/composables/useAgentRunStream.js:99-110 | an empty line hands on one event exactly if there are data lines, and forgets all fields; any line that is no field changes nothing |
| Sse.TrimTakesBlanks | web/src/composables/useAgentRunStream.js:113-118 | trimming takes away exactly the blanks at both ends |
| Sse.JoinUndoesSplit | web/src/composables/useAgentRunStream.js:95-97 | the pieces of a text hold no newline, and joined they are the text |
| Sse.SplitUndoesJoin | web/src/composables/useAgentRunStream.js:82 | lines without newlines that are joined fall apart into the same lines |
| Sse.ChunksDoNotMatter | web/src/composables/useAgentRunStream.js:91-122 | every split of the text gives the events of parsing it whole |
| Sse.ParsingUndoesEncoding | backend/package/yuxi/utils/sse_utils.py:15-24 | parsing what the server's formatter wrote gives back its events, heartbeats aside |
| SseConnection.CutConnection | web/src/composables/useAgentRunStream.js:91-122 | a connection cut after any character has delivered exactly its complete events, and a closed one at most one more |
| SseConnection.CloseDeliversAPrefixIff | web/src/composables/useAgentRunStream.js:91-122 | a closed connection delivers a prefix of the events exactly if no event was torn from its id |
| SseConnection.TornCutExists | backend/package/yuxi/utils/sse_utils.py:15-24 | every message of every answer has a cut that tears it from its id |
| RunDelivery.NormalizeRunSeq | web/src/utils/runStreamResume.js:3-7 | the result is always a well-formed id |
| RunDelivery.RunSeqOrder | web/src/utils/runStreamResume.js:25-34 | the comparison is antisymmetric and transitive, with the origin at the bottom, and ignores leading zeros |
| RunDelivery.ServerIdsAreKept | web/src/utils/runStreamResume.js:1-23 | every id made of two decimal numbers is kept as it is and read back as those numbers |
| RunDelivery.ServerIdsInOrder | web/src/utils/runStreamResume.js:25-34 | ids are ordered as their numbers are, the first before the second |
| RunDelivery.RunEventConsumer.Start | web/src/composables/useAgentRunStream.js:330-342 | a start sets the fence to the id it is given, normalised, and consumes nothing |
| RunDelivery.RunEventConsumer.Reset | web/src/composables/useAgentThreadState.js:93-122 | the live conversation is emptied and the fence stays where it is |
| RunDelivery.RunEventConsumer.OnEvent | web/src/composables/useAgentRunStream.js:380-389 | an event is consumed exactly if its run is active and its id, if any, is later than the cursor |
| RunDelivery.StartAfter | backend/package/yuxi/services/agent_run_service.py:913-960 | the server starts at the first event later than the cursor it is given |
| RunDelivery.StartsWhereConsumedIff | web/src/composables/useAgentRunStream.js:330-370 | a subscription starts where the consumed prefix ends exactly if it is given the id of the last event consumed |
| RunDelivery.ConsumedExactlyOnce | web/src/composables/useAgentRunStream.js:319-470 | for any drops, resets, reconnections, resumes and overlapping subscriptions whose starts are aligned the consumed events are a prefix of the log, each once and in order |
| RunDelivery.StartKeepsOnceIff | web/src/composables/useAgentRunStream.js:342 | the first event a new subscription delivers keeps to the log exactly if the start was aligned |
| RunDelivery.ExactlyOnceIff | web/src/composables/useAgentRunStream.js:319-470 | every state of a run stays safe, whatever aligned steps follow, exactly if all its starts are aligned |
| RunDelivery.StaleResumeRepeats | web/src/composables/useAgentRunStream.js:537-548 | a resume whose id was read before a reconnection consumed an event consumes it again |
| RunDelivery.ReconnectionAfterResetSkips | web/src/composables/useAgentRunStream.js:319-328 | a reconnection between a reset and the start that belongs to it leaves out what was consumed before |
| RunDelivery.OneSubscriptionCatchesUp | web/src/composables/useAgentRunStream.js:449-470 | one subscription that stays open brings the whole log, whatever came before |
| RunDelivery.OpenIff | web/src/composables/useAgentRunStream.js:173-181 | a subscription is open exactly from its start until it is dropped or the page is reset, and can be dropped at any time |
| RunDelivery.LogIsAppended | backend/package/yuxi/services/run_queue_service.py:150-176 | in every run the log is all that has been appended, in order |
| RunDelivery.DeliveryKeepsPrefixIff | web/src/composables/useAgentRunStream.js:384-389 | a delivery keeps to the log exactly if its subscription is not ahead of the cursor |
| RunDelivery.TornEventIsConsumedTwice | web/src/composables/useAgentRunStream.js:384-389 | an event without its id passes the fence and comes again on the next subscription |
| RunPipeline.DroppedSubscription | web/src/composables/useAgentRunStream.js:319-470 | from the server's characters to the consumed events: a subscription dropped anywhere leaves a longer prefix of the log |
| RunPipeline.ClosedSubscriptionIff | web/src/composables/useAgentRunStream.js:91-122 | a subscription closed anywhere keeps to the log exactly if no event was torn from its id |
| RunPipeline.TornEventComesTwice | web/src/composables/useAgentRunStream.js:91-122 | a torn answer followed by the next subscription in full, in any chunks: the whole log is consumed, and the torn event twice |
| Settlement.ThreadState.StopRunStreamSubscription | web/src/composables/useAgentRunStream.js:173-181 | the subscription is aborted and released, nothing else changes |
| Settlement.ThreadState.ResetOnGoingConv | web/src/composables/useAgentThreadState.js:93-122 | the live conversation is emptied and the subscription aborted |
| Settlement.ThreadState.StartRunStream | web/src/composables/useAgentRunStream.js:330-345 | the old subscription is aborted, the run becomes active and streams on a new one, and the fence is set to the id given |
| Settlement.ThreadState.ReconnectRun | web/src/composables/useAgentRunStream.js:319-328 | a delayed reconnection starts only the run that is still active and has no subscription |
| Settlement.ThreadState.SendMessage | web/src/components/AgentChatComponent.vue:3607-3657 | a message sent while no run streams opens a new live conversation and starts streaming; otherwise it changes nothing but the interrupt |
| Settlement.ThreadState.RunCreated | web/src/components/AgentChatComponent.vue:3718-3721 | the sent message is put in its place again, everything handled stays, and the run is started from the origin |
| Settlement.ThreadState.RemoveRequest | web/src/composables/useAgentRequestQueue.js:42-48 | a withdrawn request takes its message away and nothing else |
| Settlement.ThreadState.AnswerQuestion | web/src/components/AgentChatComponent.vue:3858-3860 | an answer takes the interrupt away, starts streaming and empties the live conversation |
| Settlement.ThreadState.OnEvent | web/src/composables/useAgentRunStream.js:380-417 | an event of a run that is not active, or not later than the fence, leaves the live conversation alone |
| Settlement.ThreadState.FinalizeRunStream | web/src/composables/useAgentRunStream.js:246-293 | a settlement is effective exactly if the active run is the expected one, and changes nothing else; effective, it stops the streaming, leaves the one callback that will reset the run, and the run stays active exactly if it waits for the answer to its own interrupt |
| Settlement.ThreadState.PreserveInterruptedRun | web/src/composables/useAgentRunStream.js:295-317 | the interrupted run stays active, stops streaming and keeps the fence of its snapshot |
| Settlement.ThreadState.ResumeFoundTerminal | web/src/composables/useAgentRunStream.js:511-516 | the subscription is stopped before the settlement is judged |
| Settlement.ThreadState.ResumeFoundInterrupted | web/src/composables/useAgentRunStream.js:501-510 | the interrupted run is preserved if its interrupt is at hand, else replayed from the start |
| Settlement.ThreadState.OnSettled | web/src/composables/useAgentRunStream.js:236-244 | the delayed callback resets the conversation exactly if no run or its own run is active |
| Settlement.ThreadState.OnStreamReturned | web/src/composables/useAgentRunStream.js:479-490 | a returning stream releases only its own controller |
| Settlement.OneSettlementPerActivation | web/src/composables/useAgentRunStream.js:246-345 | over every run of the thread each activation ends in one settlement, in a takeover, or not yet |
| Settlement.CallbacksAreCounted | web/src/composables/useAgentRunStream.js:236-293 | the pending callbacks of a run are the settlements of it that took effect, less those that have fired |
| Settlement.CallbackSparesNewRuns | web/src/composables/useAgentRunStream.js:236-244 | a callback empties the live conversation of an active run exactly if it was made for that run; such callbacks are pending exactly while more settlements of it took effect than have called back, and then it was interrupted or became active again |
| Settlement.StepLosesIff | web/src/components/AgentChatComponent.vue:3653-3860 | one step takes text of a run away exactly if it is a reset of the page or a callback of the active run or of none, and the live conversation held some |
| Settlement.LiveIsHandledSinceWipe | web/src/composables/useAgentRunStream.js:236-417 | in every state the live conversation holds of every run exactly what was handled of it since the last wipe, in order |
| Settlement.LiveEndsWithHandledIff | web/src/composables/useAgentRunStream.js:236-417 | from any state on, the live conversation ends with everything handled of a run since then exactly if nothing of it was wiped |
| Settlement.NoLiveChunkIsLost | web/src/composables/useAgentRunStream.js:236-417 | while a run is active for the first time and not interrupted, the live conversation holds everything ever handled of it exactly if the page itself wiped nothing handled, however late other runs' callbacks come |
| Settlement.HeldOnceIff | web/src/composables/useAgentRunStream.js:330-389 | the live conversation holds each event of a run once, and goes on to, exactly if no start has set the fence below an event that was held |
| Settlement.AcceptedRunIsDoubled | web/src/components/AgentChatComponent.vue:3718-3721 | an accepted request whose run a resume has found already: its event is held twice |
| Settlement.RestartedRunIsWiped | web/src/composables/useAgentRunStream.js:236-244 | a run that ended and was started again loses its live chunks to the callback of its first end |
| Settlement.StreamsWithoutRunIff | web/src/components/AgentChatComponent.vue:3653-3657 | a thread streams without an active run exactly between a message or answer sent while none was active and what concludes it |
| Settlement.StreamsIff | web/src/composables/useAgentRunStream.js:246-485 | with an active run or without, a thread streams exactly if a start, an answer, a message or an acceptance has made it stream and no effective settlement, preserve, unsettled end or other stop has come since |
| Settlement.InterruptStandsIff | web/src/composables/useAgentRunStream.js:192-285 | in every run the page holds an interrupt exactly if it has been noted and no other, no message, no answer, no settlement of the idle thread and no settlement of a run that it is of, unless that waits for it, has come since |
| Settlement.AtMostOneSubscription | web/src/composables/useAgentRunStream.js:173-181 | in every state at most one subscription of the thread is open |
| Settlement.StaleResumeCutsAnotherRun | web/src/composables/useAgentRunStream.js:497-519 | a run that shows such a resume leaving the new run active without a subscription |
| TextPacing.Take | web/src/composables/useStreamSmoother.js:49-68 | what is emitted followed by the rest is the text |
| TextPacing.TakeBounds | web/src/composables/useStreamSmoother.js:49-68 | at least something is released, less than a segment too much and less than a segment too little |
| TextPacing.TakesWholePieces | web/src/composables/useStreamSmoother.js:49-68 | a segment is never cut |
| TextPacing.TakeFromBuffer | web/src/composables/useStreamSmoother.js:49-68 | the loop over the segments computes that |
| TextPacing.RateAtLeastMinimum | web/src/composables/useStreamSmoother.js:101-120 | the rate never drops below 32 once set, for every smoothing weight between 0 and 1 |
| TextPacing.FrameAccounts | web/src/composables/useStreamSmoother.js:101-138 | a frame loses no text, and the credit it leaves is the credit before plus what its time earned minus what it released |
| TextPacing.PacingIsTwoSided | web/src/composables/useStreamSmoother.js:101-198 | over any frames and arrivals the released text is less than a segment ahead of the earned credit and, while text remains, less than a segment behind |
| TextPacing.DrainsInTime | web/src/composables/useStreamSmoother.js:14-18 | while text remains of L units, frames alone have been credited for less than (L + G - credit) / 0.032 ms, at worst (L + 2 G - 1) / 0.032 ms |
| PlaybackRate.FrameRate | web/src/composables/useStreamSmoother.js:101-114 | the first frame plays at the largest of 32, the arrival rate and the buffer over 0.6 s; a later one moves towards it by the weight, strictly between; the credit grows by that rate over at most 64 ms |
| PlaybackRate.FirstFrameCatchesUp | web/src/composables/useStreamSmoother.js:106-113 | a first frame over L units earns at least L * elapsed / 600 |
| PlaybackRate.FrameReleases | web/src/composables/useStreamSmoother.js:115-130 | a frame does nothing before its time, and then releases text exactly if one unit is credited: content first, reasoning from what is left, each within a segment of its share |
| PlaybackRate.ArrivalIsSampled | web/src/composables/useStreamSmoother.js:187-197 | a chunk is appended and counted; 200 ms after the last sample the arrival rate moves towards what came in since, by the weight, and a new sample begins |
| PlaybackRate.FirstSample | web/src/composables/useStreamSmoother.js:164-197 | the first sample of a message is the weight's share of all its text so far over its age |
| PlaybackRate.NothingBeforeItsTime | web/src/composables/useStreamSmoother.js:164-176 | a new message shows nothing until it is 180 ms old |
| PlaybackRate.RateStaysUp | web/src/composables/useStreamSmoother.js:106-113 | while at least L units stay buffered a rate that has reached L / 0.6 does not fall below it, and earns L units in 0.6 s |
| PlaybackRate.CatchesUpInTime | web/src/composables/useStreamSmoother.js:14-18 | frames bring B buffered units down to L in less than (B - L + G - credit) * 600 / L ms |
| PlaybackRate.EveryMessageLives | web/src/composables/useStreamSmoother.js:71-207 | in every state of every run of the smoother a message that plays is what its own chunks and frames have made of a new one |
| StreamSmoother.StreamSmootherState.FlushMessage | web/src/composables/useStreamSmoother.js:75-87 | everything buffered is delivered at once and the frame is cancelled |
| StreamSmoother.StreamSmootherState.PushChunk | web/src/composables/useStreamSmoother.js:141-199 | a chunk that cannot wait is shown now, after all that waited, and ends the wait; one without text is shown and changes nothing else; any other is buffered, a new message with one frame requested; other messages stay as they are |
| StreamSmoother.StreamSmootherState.PlayFrame | web/src/composables/useStreamSmoother.js:101-130 | a frame in place does what `PlaybackRate.FrameRate` and `PlaybackRate.FrameReleases` say of its rate, its credit and its text |
| StreamSmoother.StreamSmootherState.Tick | web/src/composables/useStreamSmoother.js:90-138 | a frame releases text and asks for the next one exactly if text remains |
| StreamSmoother.StreamSmootherState.FlushThread | web/src/composables/useStreamSmoother.js:202-207 | every message of the thread is flushed, in some order, and no other |
| StreamSmoother.AlwaysTidy | web/src/composables/useStreamSmoother.js:70-207 | between any two steps every controller has text buffered and exactly one pending frame |
| StreamSmoother.PushAddsText | web/src/composables/useStreamSmoother.js:141-199 | a push adds its text at the end of its own message and nowhere else |
| StreamSmoother.TextIsConserved | web/src/composables/useStreamSmoother.js:70-207 | over every interleaving, what a message shows followed by its buffer is what was pushed to it, in order, for content and for reasoning |
| StreamSmoother.FlushDeliversEverything | web/src/composables/useStreamSmoother.js:202-207 | after a flush of the thread all its text is shown and nothing of it is pending |
| StreamSmoother.AlwaysPaced | web/src/composables/useStreamSmoother.js:90-199 | every message keeps its pace in every state of every run |
| Stripping.StripIsIdempotent | backend/scripts/migrate_oa_users.py:54-56 | stripping leaves nothing to strip, and leaves alone exactly the texts without surrounding white space |
| DepartmentTree.Flatten | backend/scripts/migrate_oa_departments.py:51-63 | the recursive loop computes the flattened list, or refuses it |
| DepartmentTree.FlattenIsTopDown | backend/scripts/migrate_oa_departments.py:51-63 | every parent is listed before its children |
| DepartmentTree.FlattenListsTheTree | backend/scripts/migrate_oa_departments.py:51-63 | the list is refused exactly if a node is filled in in part; else it holds every complete node once, under its nearest ancestor with an id |
| DepartmentTree.FlattenedAreComplete | backend/scripts/migrate_oa_departments.py:55-59 | every listed department has an id, a code and a stripped name |
| DepartmentPlan.BuildDepartmentActions | backend/scripts/migrate_oa_departments.py:76-109 | the planner's loops compute the plan that the theorems are about |
| DepartmentPlan.PlanDepartment | backend/scripts/migrate_oa_departments.py:85-108 | one turn decides about a department and notes it for its children |
| DepartmentPlan.DepartmentTable.ApplyAction | backend/scripts/migrate_oa_departments.py:131-159 | one action changes the row it names or adds one, or fails for the stated reason |
| DepartmentPlan.DepartmentTable.ApplyActions | backend/scripts/migrate_oa_departments.py:122-159 | all actions are applied, or an error leaves the table as it was |
| DepartmentSync.IndexFinds | backend/scripts/migrate_oa_departments.py:81 | with distinct sibling names the index finds the row of a key whatever the order of the rows |
| DepartmentSync.MatchIsReal | backend/scripts/migrate_oa_departments.py:94-108 | in a plan without conflicts a department is never matched with one that is yet to be created |
| DepartmentReplay.AlwaysInStep | backend/scripts/migrate_oa_departments.py:122-159 | planner and executor stay in step: same departments mapped, placeholders standing for new rows, every mapped department placed |
| DepartmentReplay.PlanAppliesIff | backend/scripts/migrate_oa_departments.py:122-159 | a conflict-free plan never meets an unmapped parent or a missing row, and fails exactly if another row carries a code or identity to be written |
| DepartmentReplay.AllAreKept | backend/scripts/migrate_oa_departments.py:85-93 | a top-down list without repeated codes is mapped whole |
| DepartmentReplay.PlannerKeeps | backend/scripts/migrate_oa_departments.py:85-107 | which departments are mapped depends on the input alone |
| DepartmentReplay.EveryDepartmentIsPlaced | backend/scripts/migrate_oa_departments.py:122-159 | every mapped department ends with its name, code and identity under the row of its parent; other rows are unchanged |
| DepartmentReplay.IdentitiesAreKept | backend/scripts/migrate_oa_departments.py:98-103 | a conflict-free plan overwrites no code and no identity that a row already has |
| DepartmentReplay.ReplanningOnlySkips | backend/scripts/migrate_oa_departments.py:76-109 | planning again on the result, in any order of the rows, only skips |
| DepartmentNamesakes.ConflictIffClash | backend/scripts/migrate_oa_departments.py:94-108 | on every platform, in any order of its rows, a plan has a conflict exactly if some kept department finds its row carrying another code or identity, or is called like a parent that is to be created |
| UserPlan.GroupDepartments | backend/scripts/migrate_oa_users.py:66-69 | departments are grouped by identity, in their order |
| UserPlan.BuildMigrationActions | backend/scripts/migrate_oa_users.py:59-140 | the planner's loops compute the plan of which `UserReplay` says who is accepted, in conflict and placed, and `UserIdentities` under which identity |
| UserPlan.UserStore.ApplyAction | backend/scripts/migrate_oa_users.py:237-264 | one action changes one user or adds one, or fails for the stated reason; names and uids stay unique |
| UserPlan.UserStore.ApplyActions | backend/scripts/migrate_oa_users.py:228-264 | all actions are applied, or an error leaves the table as it was |
| UserReplay.UidDeterminesAccount | backend/scripts/migrate_oa_users.py:54-56 | within a company the stable identity determines the account |
| UserIdentities.UidDecodes | backend/scripts/migrate_oa_users.py:54-56 | split at the colons an identity is `oa`, the stripped company and the stripped account, if neither holds a colon |
| UserIdentities.UidTellsCompanyAndAccount | backend/scripts/migrate_oa_users.py:54-56 | unless one company code extends the other after a colon, two identities are equal exactly if company and account are |
| UserIdentities.PlainCompaniesAreTold | backend/scripts/migrate_oa_users.py:54-56 | so for all company codes without a colon, whatever the accounts |
| UserIdentities.CompaniesClashIff | backend/scripts/migrate_oa_users.py:54-56 | two different companies can give out one identity exactly if one code extends the other after a colon |
| UserReplay.AcceptedIff | backend/scripts/migrate_oa_users.py:85-106 | a user is accepted exactly if account and name are filled in, no earlier named user has the account and the department is one department of the platform, which is then the user's |
| UserReplay.SkippedForAReason | backend/scripts/migrate_oa_users.py:85-105 | a user who is not accepted is skipped for the first reason that applies, and nothing is planned; each reason is given exactly when it applies |
| UserReplay.SkippedIffUpToDate | backend/scripts/migrate_oa_users.py:113-130 | an accepted user without a conflict is skipped exactly if the row is as wanted already, and is told the department |
| UserReplay.ConflictIffTaken | backend/scripts/migrate_oa_users.py:107-112 | a conflict is planned exactly for an accepted user whose stable identity another user holds |
| UserReplay.ConflictPlansNothing | backend/scripts/migrate_oa_users.py:110-112 | a conflict says that the identity is taken and plans nothing |
| UserReplay.AcceptedDiffer | backend/scripts/migrate_oa_users.py:85-110 | no two accepted users share an account or a stable identity |
| UserReplay.ActsOncePerAccount | backend/scripts/migrate_oa_users.py:85-140 | a plan acts at most once on an account |
| UserReplay.AlwaysInStep | backend/scripts/migrate_oa_users.py:228-264 | planner and executor stay in step over the whole plan |
| UserReplay.PlanAppliesIff | backend/scripts/migrate_oa_users.py:228-264 | a conflict-free plan finds every user it updates, and fails exactly if a deleted user holds a name or identity to be written |
| UserReplay.EveryUserIsPlaced | backend/scripts/migrate_oa_users.py:228-264 | every accepted user has a row with account, identity, department and name; all others are unchanged; identities are unique |
| UserReplay.ReplanningOnlySkips | backend/scripts/migrate_oa_users.py:59-140 | planning again on the result, in any order of the rows, only skips |
| UserIdentities.PlacedUsersDecode | backend/scripts/migrate_oa_users.py:228-264 | after a plan every accepted user has a row whose identity reads back as the company and the account |
| UserIdentities.CompaniesShareNobody | backend/scripts/migrate_oa_users.py:107-108 | users accepted for two companies never share an identity, unless one code extends the other |
| UserIdentities.ConflictsAreNotAcrossCompanies | backend/scripts/migrate_oa_users.py:107-112 | a conflict in a plan for a second company comes from a row that the plan of the first left as it was |
| UserNames.RepairOnlyNames | backend/scripts/migrate_oa_users.py:182-193 | restricted to display names any plan applies, creates nobody and changes no account, department or identity |
| UserNames.RepairedNames | backend/scripts/migrate_oa_users.py:182-193 | after the repair every accepted user whom the plan does not report as a conflict shows the full name of the office-automation system; every other row is as it was |
| SyncRefusals.MovedDepartmentIsRefused | backend/scripts/migrate_oa_departments.py:145-157 | a conflict-free plan for a moved department that the database refuses |
| SyncRefusals.ReturningUserIsRefused | backend/scripts/migrate_oa_users.py:253-264 | a conflict-free plan for a user who was deleted and came back that the database refuses |
| OaSync.CountActions | backend/scripts/sync_oa_data.py:33-38 | each kind is counted as often as it occurs |
| OaSync.BuildPostDepartmentInputs | backend/scripts/sync_oa_data.py:41-52 | the loop computes the dry run's view of the departments |
| OaSync.DryLinks | backend/scripts/sync_oa_data.py:41-52 | that view holds for each mapped department the one row or placeholder the planner mapped it to |
| OaSync.ActualLinks | backend/scripts/migrate_oa_users.py:267-279 | after the departments are written the table holds for each mapped department the one row it was placed in |
| DryRun.SameDepartmentPlan | backend/scripts/migrate_oa_departments.py:81 | the department plan does not depend on the order in which the database lists its rows |
| DryRun.UserPlansAgree | backend/scripts/sync_oa_data.py:99-113 | the user plan of the dry run is the one made after writing, up to the keys of new departments |
| DryRun.ConflictStopsBoth | backend/scripts/sync_oa_data.py:90-97 | a conflict among the departments stops dry and writing run alike, before anything is written |
| DryRun.DryRunForetells | backend/scripts/sync_oa_data.py:90-126 | same counts and same exit code, unless the database refuses an identity, and exactly when it does is told by the dry plans |
| SyncOutcome.DryRunReports | backend/scripts/sync_oa_data.py:69-128 | a dry run writes nothing, and its exit code is 1 exactly if one of its two plans has a conflict |
| SyncOutcome.WritingRunLeaves | backend/scripts/sync_oa_data.py:69-128 | the departments are placed exactly if their plan is free of conflicts and refusals, the users exactly if the exit code is 0; 1 means a conflict and an error a refusal, and nothing else |
| SyncRun.LoadDatabaseDepartments | backend/scripts/migrate_oa_departments.py:112-119 | the listing holds exactly the rows of the table |
| SyncRun.LoadDepartmentLinks | backend/scripts/migrate_oa_users.py:267-279 | the listing holds each department once with its identity |
| SyncRun.LoadUsers | backend/scripts/migrate_oa_users.py:272-279 | the listing holds exactly the users that are not deleted |
| SyncRun.Run | backend/scripts/sync_oa_data.py:69-128 | departments first, users after; nothing is written past a failed check, and a dry run writes nothing |

## Left out

- Docker and Kubernetes calls, mounts, labels, pod specs, environment merging and authentication:
  foreign calls. Deletes made by the Docker backend inside `create` and `discover` are not steps of
  the lifecycle, and a backend call may fail at any time.
- HTTP proxying and cancellation while a request waits for a pin: a proxy handler acquires, works,
  touches and releases. Spurious wake-ups of condition variables are not steps.
- The threads that run the handlers declared without `async` come from a pool of the web framework, which is
  no part of this model: such a request is there once it has a thread.
- LifecycleOverlap.OverlapLosesExclusion: is not claimed while a holder of a pin waits for a worker and there
  are more jobs than workers: the deleters may then be starved and never finish, as
  `LifecycleStarvation.StarvedDeletesNeverRun` states.
- The deadline and the pauses of `quiesce_sandboxes`: a caller may give up at any moment
  (`Abandon`), and its queued workers are then cancelled. One pass of the reaper is one deletion per
  expired entry. A generation is a counter where the source draws a random token.
- Normalisation of sandbox names and of work directories: names and directories are compared as given.
- `TextDecoder`, JSON, local storage, Vue reactivity and animation frames: decoded text and payloads
  are given, frames fire in any order and at any time, and the page's clock never matters except
  through elapsed time. `Math.exp` is any weight strictly between 0 and 1, and numbers are reals.
- The skeleton of a chunk, the reset of a thread and a missing thread state in the smoother: only
  the two text fields are followed.
- What the page does with a consumed event (metadata, retryable errors, terminal events) in
  `RunDelivery`: `Settlement` covers the settling, the other effects do not touch the fence.
- Settlement.NoLiveChunkIsLost: is about one thread; a settlement that touches the threads of subagents, the
  disposal of a page and the snapshots in local storage are not followed, nor are the outputs of tools, each
  of which replaces its own earlier copy. A settlement aimed at any run may arrive at any time, which covers
  every origin of one.
- Fetching from the office-automation system, the derivation of its URLs and of numeric department
  ids, log lines, database sessions and the materialised path of a department. The tables enforce
  the unique columns of the schema: a department's code, identity and name under its parent, a
  user's name and uid.
- Negative department ids: the source accepts any id but zero, and the placeholder of a negative one would be
  positive and could be taken for a row. `SoundInput` and `DistinctIds` require positive ids.
- DepartmentReplay.PlanAppliesIff: assumes unique identities and distinct sibling names in the input
  and distinct stripped sibling names in the table; the source checks neither.
- UserReplay.PlanAppliesIff: assumes that the account names in the table are stripped, because the
  planner strips them and the executor looks them up as they are.
- DryRun.DryRunForetells: assumes that no department outside the plan carries an identity and that
  users are in departments that exist.
- The conversation migration, the storage migration, routers, permissions and repositories: thin
  layers over code that would add only easy members.
