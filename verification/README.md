# Gates, agent host and proxy administration: a verified model

This project models the parts of the platform whose promises span many steps, and proves those promises
for every input and every run.

- **The gate's `apply`** (`IdempotencyStore`, `GateProtocol`, `GateProperties`, `GateOutcomes`). A reservation is written to
  a file before the transport is called, and its result, failure or release afterwards; a lookup closes a
  key that holds nothing. Writes go through one chain and take their snapshot when they run. Runs
  interleave any number of calls with writes that land, fail or land unnoticed, crashes and restarts. What
  is recorded, replayed and answered is compared with what the transport did.
- **Network failures and the docker transport** (`NetworkFailure`, `DockerTransport`, `DockerEffects`). The signal read from
  a graph of error objects, and from it the line between "nothing changed" and "it may have run"; which effect calls each operation makes.
- **Turns** (`AgentHost`, `TurnWorld`, `PiDiscipline`, `TurnProperties`, `TurnReports`, `SessionLoss`). The host's handlers,
  split at their awaits; a supervisor that may replace the container during a spawn or hand a running one
  back; container streams that end with or without their container; agent-host restarts; and in every
  container a pi process that answers its commands in order and has one session loaded.
- **The event bridge** (`ReplayBuffer`, `KernelLink`, `LinkProperties`, `WireProperties`, `LinkEffects`). Numbering, bounded
  replay, cumulative acknowledgement and reconnects, with everything ever written to each connection.
- **Proxy administration** (`UpstreamLimits`, `LimiterRuns`, `LimiterAdmission`; `ProviderCatalog`, `AdminApi`,
  `AdminKeyProperties`, `AdminEffects`, `AdminInterleavings`, `AdminRefinement`; `KeyStore`). Slots that are
  handed over and a sliding budget; which key may go to which upstream, and what each answered request
  leaves; the mutex before the key file.
- **Forms and algorithms** (`JsonText`, `CanonicalJson`, `CanonicalJsonProperties`, `StableJsonProperties`;
  `PagedRead`; `LineSplitter`; `LogDemux`; `ProcessTree`).

Every object that updates itself in place is a class whose methods are proved to compute a function on its
abstract state; the theorems about runs are about those functions. An event that cannot happen in a state
leaves it unchanged, so a run is any sequence of events.

## Where code and documentation differ

- `lookup`'s "absent" is documented as "closed for good" (`idempotency-store.ts`, lines 56 and 88). A second
  lookup that merely finds the closing of a first one answers "absent" without waiting for the first one's
  write, and when that write fails the key is free again. `AbsentCanStillRunIffClosingClaimed` says exactly
  when an operation can still run after such an answer; the answer of the lookup that closed the key is
  final (`AnswersAreForGood`).
- A replayed result can still become "outcome unknown" after a crash as long as the write of that result has
  not landed: `ResultIsFinalIffOnFile`.
- "At most `budget` upstream calls within any `windowMs`" (`admin-limits.ts`, lines 11-14) holds for stretches
  that take in one of their two ends, and for no longer ones: `BudgetHoldsIff`.
- A console key belongs to its provider's current upstream except after one kind of request, a delete whose
  best-effort key clear fails: `KeysBelongIff` gives the exact condition. That is for requests handled one at
  a time. In flight together, three kinds of step part a key from its upstream (`PartsIff`), and a test or
  proxied call that takes its key after its provider moved sends it to the old upstream (`CallIsRightIff`).
- `networkFailureDelivery` is exact on trees, and on every graph of `n` objects exactly for `n` up to nine
  (`ExactIffUpToNine`).
- An error status on the first effect call is documented to mean that nothing changed
  (`gatekeepers/docker/src/transport.ts`, lines 169-171). `PlainFailureChangedNothing` says for which statuses
  that is certain: not for a proxy's 502 or 504, as the documentation grants, and not for a 500 to a stop or
  a restart (a restart is a stop, then a start that may fail).
- A closed stream is documented to mean a fresh pi process (`packages/agent-host/src/host.ts`, lines 27-30),
  but a stream can break, or agent-host restart, while the container lives on and is handed back. Session
  isolation then depends on whether pi was running a prompt, or had one to take up, for nothing ties pi's
  `agent_settled` to a Turn: `StreamLossIsSafeIff`, `RestartIsSafeIff` and `StartIsSafeIff` give the exact
  condition. Unread answers and switches under way do no harm.
- The two JSON printers are one exactly on values without `undefined` (`StableIsCanonicalIff`).

## What the world is taken to do

- Gate: a write lands as a whole or not at all, and the process may crash in between. A release whose write
  fails, and an answer whose facts cannot be mapped, leave the key pending in memory or freed only there, as
  in the code.
- Turns: startTurn ids are distinct, over agent-host restarts too; the supervisor never answers a spawn with
  a container it replaced; pi echoes the id of a command, answers each once and in order, changes its
  session only by a switch it confirms, and settles only a prompt it accepted. While a prompt runs pi may
  confirm a switch and go on running it, and it refuses another prompt; the failing halves of the three
  `SafeIff` lemmas use this, the safe halves do not. A broken stream may swallow
  any stretch of what pi said or was to read, in whole lines.
- Event bridge: a socket opens at most once. Only the theorems that name an honest kernel assume that a
  kernel acknowledges numbers it was sent on that connection.
- Limiter: the clock does not go back.
- Administration: the file and the environment do not change. `AdminKeyProperties` handles requests one at a
  time, `AdminInterleavings` cuts them at their awaits.
- Docker: a call that read as never sent was not sent, and an error status comes before anything is done,
  except 502 and 504, and 500 to a stop or restart, which may follow the action (`MayFollowAction`). A start
  answered 304 is an error; a stop answered 304 succeeds.

## Model

| member | source | states |
|---|---|---|
| IdempotencyStore.JsonFileIdempotencyStore.Load | packages/gatekeeper-base/src/idempotency-store.ts:309-336 | the map read from the file holds every recognised record, a pending one as orphaned, and nothing else |
| IdempotencyStore.JsonFileIdempotencyStore.BeginReserve | packages/gatekeeper-base/src/idempotency-store.ts:169-197 | what `reserve` answers for each kind of entry and descriptor, and that only a free key is claimed and written |
| IdempotencyStore.JsonFileIdempotencyStore.BeginLookup | packages/gatekeeper-base/src/idempotency-store.ts:201-227 | what `lookup` answers, and that only an absent key is closed and written |
| IdempotencyStore.JsonFileIdempotencyStore.BeginComplete | packages/gatekeeper-base/src/idempotency-store.ts:239-250 | the result replaces the reservation under the reservation's own descriptor; one write is queued |
| IdempotencyStore.JsonFileIdempotencyStore.BeginFail | packages/gatekeeper-base/src/idempotency-store.ts:252-264 | the failure replaces the reservation under the reservation's own descriptor; one write is queued |
| IdempotencyStore.JsonFileIdempotencyStore.BeginRelease | packages/gatekeeper-base/src/idempotency-store.ts:266-270 | only a pending key is freed, and only then is there a write |
| IdempotencyStore.JsonFileIdempotencyStore.RollBack | packages/gatekeeper-base/src/idempotency-store.ts:342-350 | a reservation or closing whose write failed leaves memory again |
| IdempotencyStore.JsonFileIdempotencyStore.TakeSnapshot | packages/gatekeeper-base/src/idempotency-store.ts:387-402 | a queued write copies the whole map as it is when the write runs, not when it was asked for |
| GateProtocol.StepKeepsInv | packages/gatekeeper-base/src/gatekeeper-base.ts:276-370 | every step keeps the protocol's invariant: what each call in flight holds in memory, has on disk and waits for, one call to a key, one unrefused invocation to a key (what is recorded is the matter of `GateOutcomes`) |
| GateProperties.TransportRunsAtMostOnce | packages/gatekeeper-base/src/gatekeeper-base.ts:298-366 | in every run from any file, at most one invocation per actionRequestId that did not end in a refusal |
| GateProperties.EachCallInvokesOnce | packages/gatekeeper-base/src/gatekeeper-base.ts:336-341 | one call never invokes the transport twice |
| GateProperties.FinalIsForever | packages/gatekeeper-base/src/idempotency-store.ts:338-392 | a final entry answers every later question the same for its descriptor and as a conflict for any other, and its key is never invoked, through crashes and restarts |
| GateProperties.LandedResultIsFinal | packages/gatekeeper-base/src/idempotency-store.ts:354-364 | a result, failure or orphaned reservation is final from the moment its write lands |
| GateProperties.LandedClosingIsFinal | packages/gatekeeper-base/src/idempotency-store.ts:371-385 | a closing is final from the moment the closing lookup's own write lands |
| GateProperties.OrphanIsFinal | packages/gatekeeper-base/src/idempotency-store.ts:274-290 | a reservation found in the file at startup answers unknown for good |
| GateProperties.OwnAnswersRun | packages/gatekeeper-base/src/gatekeeper-base.ts:361-366 | what whoever ran the operation or closed the key was told is the final entry of that key (that it is the outcome: `GateOutcomes.CallersAreToldTheOutcome`) |
| GateProperties.AnswersAreForGood | packages/gatekeeper-base/src/gatekeeper-base.ts:379-413 | once the running caller or the closing lookup has its answer, every later question about the key agrees with it, over the whole rest of any run |
| GateProperties.ResultIsFinalIffOnFile | packages/gatekeeper-base/src/idempotency-store.ts:354-358 | a result in memory is safe from turning into unknown exactly when the file already has it |
| GateProperties.AbsentCanStillRunIffClosingClaimed | packages/gatekeeper-base/src/idempotency-store.ts:214-214 | after a second lookup's "absent" the operation can still run exactly while the first lookup's closing may still be undone |
| GateOutcomes.CallersAreToldTheOutcome | packages/gatekeeper-base/src/gatekeeper-base.ts:336-366 | in every run the caller that ran the operation is told a result if and only if its own transport call succeeded, with that payload, and a failure if and only if it failed, with that failure; a refused one is never told it performed anything |
| GateOutcomes.ReplaysAreResults | packages/gatekeeper-base/src/gatekeeper-base.ts:319-326 | in every run, every payload replayed to an apply or a lookup was returned by the transport for that actionRequestId and descriptor, or stood in the file at the start |
| GateOutcomes.RepeatedFailuresAreFailures | packages/gatekeeper-base/src/gatekeeper-base.ts:316-318 | the same of every repeated failure; an apply may otherwise only be told that it came after the key was closed |
| GateOutcomes.FileHoldsOutcomes | packages/gatekeeper-base/src/idempotency-store.ts:387-402 | at every moment of a run every result and failure in the file is one the transport gave for that key, or stood there at the start |
| GateOutcomes.StepKeepsTrace | packages/gatekeeper-base/src/gatekeeper-base.ts:336-366 | every step keeps what is recorded, snapshotted, on file and answered in step with the outcomes of the transport calls |
| GateOutcomes.ConcurrentCallsConflict | packages/gatekeeper-base/src/idempotency-store.ts:169-220 | while a call of a key is under way, any other apply is a conflict, and a lookup pending or a conflict |
| GateOutcomes.HeldKeysAnswer | packages/gatekeeper-base/src/idempotency-store.ts:169-220 | a key that holds anything else answers at once with what it holds and changes nothing; a closed key says for certain that nothing ran |
| GateOutcomes.FreeKeysAreTaken | packages/gatekeeper-base/src/idempotency-store.ts:193-227 | a free key is reserved by an apply and closed by a lookup, in memory at once and with one write queued |
| GateOutcomes.InvokedOnlyReserved | packages/gatekeeper-base/src/gatekeeper-base.ts:298-341 | the transport is only called by an approved call whose reservation is in the file already |
| GateOutcomes.NothingRunFreesTheKey | packages/gatekeeper-base/src/gatekeeper-base.ts:324-351 | a call that was not approved, had no credential, was refused, or could not write its reservation or closing frees its key |
| GateOutcomes.OutcomeCanBeAnswered | packages/gatekeeper-base/src/gatekeeper-base.ts:352-366 | whatever the transport did, short of a refusal, and whatever writes are ahead, events lead to the caller being told just that |
| GateOutcomes.ClosingIsAnswered | packages/gatekeeper-base/src/gatekeeper-base.ts:405-406 | and a lookup that closed its key to being told that nothing was received |
| GateOutcomes.AnswersUnderWay | packages/gatekeeper-base/src/gatekeeper-base.ts:324-366 | a call under way is told that it performed exactly once its record is written, a lookup that it closed the key exactly once that is, and every other one an error |
| GateOutcomes.CallsAreAnsweredOnce | packages/gatekeeper-base/src/gatekeeper-base.ts:276-413 | in every run no call is answered twice, and none goes on after its answer |
| AgentHost.Host.HandleContainerClosed | packages/agent-host/src/host.ts:251-314 | only the cached attachment of that container goes, and only a Turn bound to it is interrupted |
| AgentHost.Host.HandleSwitchResponse | packages/agent-host/src/host.ts:321-357 | a confirmed switch records the loaded chat, then writes the prompt, or rejects a stopped Turn; any other answer rejects it |
| AgentHost.Host.HandleLine | packages/agent-host/src/host.ts:365-454 | a line moves only the Turn bound to its container, and only by an answer that carries that Turn's id |
| AgentHost.Host.HandleStartTurn | packages/agent-host/src/host.ts:536-568 | the resident is reserved before the first await, or the Turn is rejected |
| AgentHost.Host.StartFailed | packages/agent-host/src/host.ts:584-602 | a failed spawn or attach releases the reservation and rejects the Turn |
| AgentHost.Host.Spawned | packages/agent-host/src/host.ts:497-499 | a cached attachment of the same container is kept, one of another is closed |
| AgentHost.Host.Attached | packages/agent-host/src/host.ts:501-514 | a new attachment knows no loaded chat |
| AgentHost.Host.Bound | packages/agent-host/src/host.ts:604-645 | binds the Turn, then writes the prompt, writes the switch first, or rejects |
| AgentHost.Host.HandleStopTurn | packages/agent-host/src/host.ts:647-663 | does exactly what `OnStopTurn` says; what a stop comes to is said of the world in `TurnReports.StopAborts` and `StopOfNoTurnIsUnknown` |
| TurnWorld.StepKeepsInv | packages/agent-host/src/host.ts:535-665 | every handler, container, stream and pi step, a lost stream and an agent-host restart included, keeps what ties Turns, attachments and starts together |
| PiDiscipline.StepKeepsPeace | packages/agent-host/src/host.ts:316-454 | as long as pi is calm where a stream or agent-host is lost, every step keeps what is known of each pi: its session, and which commands and answers are under way |
| TurnProperties.SessionsAreIsolated | packages/agent-host/src/host.ts:622-644 | in every run, over containers left in any session, with replacements, crashes, stops, and streams and agent-host lost while pi is calm, whenever pi takes up a prompt it is the one its Turn was started with and that Turn's chat is loaded |
| SessionLoss.StreamLossIsSafeIff | packages/agent-host/src/container-io.ts:154-156 | the end of a stream costs isolation if and only if the container lives on and pi runs a prompt or has one to take up |
| SessionLoss.RestartIsSafeIff | packages/agent-host/src/host.ts:501-513 | a restart of agent-host costs isolation if and only if pi is so in some living container |
| SessionLoss.StartIsSafeIff | packages/worker-supervisor/src/resident-service.ts:716-716 | a new agent-host that finds containers of an earlier one keeps isolation if and only if pi is calm in each that lives |
| SessionLoss.UncalmCanMix | packages/agent-host/src/host.ts:430-445 | the failing run itself: a settle of the old prompt ends a later Turn whose switch is under way, and the next prompt is taken up in the wrong session |
| TurnProperties.TurnsEndOnce | packages/agent-host/src/host.ts:399-454 | each Turn has at most one terminal frame and nothing but `turnUnknown` after it |
| TurnProperties.BoundTurnHasItsContainer | packages/agent-host/src/host.ts:604-608 | a bound Turn's container is its resident's cached, open attachment |
| TurnProperties.TurnLeavesWithItsEnd | packages/agent-host/src/host.ts:251-454 | the step in which a Turn stops being active reports its end, if and only if it is not the end of agent-host itself |
| TurnProperties.OnlyItsContainerEndsATurn | packages/agent-host/src/host.ts:276-294 | once bound, only a line or the close of that container ends a Turn |
| TurnProperties.PromptIsWrittenOnce | packages/agent-host/src/host.ts:622-630 | a prompt is written at most once, and only to the container its Turn is bound to |
| TurnProperties.StopOvertakes | packages/agent-host/src/host.ts:647-660 | a stop that finds its Turn before the prompt was written marks it so that no prompt can follow |
| TurnProperties.StopBeforePromptIsFinal | packages/agent-host/src/host.ts:350-356 | after such a stop the prompt is never written in any run, and the Turn is only rejected or interrupted |
| TurnReports.StopAborts | packages/agent-host/src/host.ts:647-663 | from every reachable world, the stop of an active Turn writes `abort` once to the container the Turn runs in and to no other; nothing while a switch is pending; before there is a container, to the open cached one if any; and the Turn remembers it |
| TurnReports.StopOfNoTurnIsUnknown | packages/agent-host/src/host.ts:518-532 | a stop of no active Turn is answered `turnUnknown` and changes nothing |
| TurnReports.StopIsNeverCompleted | packages/agent-host/src/host.ts:434-446 | once a stop found its Turn, no later run reports that Turn as completed |
| TurnReports.StartReservesOrRejects | packages/agent-host/src/host.ts:535-568 | a busy resident's Turn is rejected and nothing else happens; a free resident is reserved |
| TurnReports.FailedStartIsRejected | packages/agent-host/src/host.ts:584-602 | a failed start is rejected once and leaves no Turn |
| TurnReports.CachedContainerBinds | packages/agent-host/src/host.ts:604-645 | a Turn bound to the cached container is prompted where its chat is the loaded one, unless stopped; else switched, if its chat id may name a file; else rejected: exactly one command or one frame |
| TurnReports.AttachedContainerBinds | packages/agent-host/src/host.ts:501-514 | a Turn bound to a container attached only now is never prompted before a switch |
| TurnReports.OtherContainerIsAttachedFirst | packages/agent-host/src/host.ts:497-501 | another container is attached first, and the stream to the one it replaces is closed |
| TurnReports.BoundTurnReadsItsLines | packages/agent-host/src/host.ts:365-454 | what every kind of line of its container means for a Turn: the frames sent, the one command written, the Turn and the loaded chat afterwards |
| TurnReports.UnboundLinesAreIgnored | packages/agent-host/src/host.ts:380-381 | a line of a container no Turn is bound to changes nothing |
| TurnReports.CloseInterrupts | packages/agent-host/src/host.ts:251-314 | the close of a stream interrupts the Turn bound to it, and only that, and forgets the attachment |
| TurnReports.SafeIdsAreWords | packages/agent-host/src/host.ts:192-192 | which chat ids may name a session file, by character code: none with a separator or a dot |
| KernelLink.EventBridge.FindVictim | packages/agent-host/src/kernel-link.ts:167-180 | over kinds: the victim is the Turn's oldest text delta; a message or tool event, the oldest of them, only where the Turn has no text delta; none only where the Turn has neither |
| KernelLink.EventBridge.EnforceBounds | packages/agent-host/src/kernel-link.ts:164-207 | the eviction loops leave exactly what the reference definition of the per-Turn bound and the overall cap keep |
| KernelLink.EventBridge.Enqueue | packages/agent-host/src/kernel-link.ts:209-219 | numbers, keeps and bounds the frame, and writes it only to an open link |
| KernelLink.EventBridge.Acknowledge | packages/agent-host/src/kernel-link.ts:221-223 | drops exactly the prefix the cumulative ack covers |
| KernelLink.EventBridge.OnOpen | packages/agent-host/src/kernel-link.ts:246-261 | writes `hello` and then every kept frame |
| KernelLink.EventBridge.OnClose | packages/agent-host/src/kernel-link.ts:300-312 | only the connection in use is forgotten when it closes |
| KernelLink.EventBridge.Start | packages/agent-host/src/kernel-link.ts:327-332 | connects anew only when stopped |
| KernelLink.EventBridge.Stop | packages/agent-host/src/kernel-link.ts:333-339 | the connection in use is closed and forgotten; what is kept stays |
| ReplayBuffer.EvictingOne | packages/agent-host/src/kernel-link.ts:167-184 | one round of the eviction loop does a part of what the reference definition says and nothing else |
| ReplayBuffer.BoundedCounts | packages/agent-host/src/kernel-link.ts:83-95 | over kinds: other Turns lose nothing; no `turnEnded`, `turnAccepted`, `turnRejected` or `turnUnknown` goes; any other kind but text deltas only once the Turn has no text delta left; no more goes than must |
| ReplayBuffer.BoundedKeepsOrder | packages/agent-host/src/kernel-link.ts:155-156 | the bound removes text deltas, messages and tool events of that Turn only and never reorders |
| ReplayBuffer.BoundedEvictsOldest | packages/agent-host/src/kernel-link.ts:167-180 | an evicted text delta is older than every kept one of its Turn, an evicted message or tool event than every kept one of those |
| LinkProperties.EnqueueAccounts | packages/agent-host/src/kernel-link.ts:209-219 | an enqueue that evicts and drops keeps the accounting exact |
| LinkProperties.AckAccounts | packages/agent-host/src/kernel-link.ts:221-223 | a cumulative ack keeps the accounting exact |
| LinkProperties.LossIsAccountedFor | packages/agent-host/src/kernel-link.ts:164-223 | in every run each number ever issued is exactly one of acked, kept, evicted, dropped; only text deltas, messages and tool events are evicted; what is kept is younger than anything acked or dropped; and a Turn over its bound keeps only frames that say how a Turn began or ended |
| LinkProperties.ProtectedFramesStay | packages/agent-host/src/kernel-link.ts:83-95 | an issued `turnEnded`, `turnAccepted`, `turnRejected` or `turnUnknown` is acked, kept, or dropped by the overall cap |
| LinkProperties.DropsIffOverTheCap | packages/agent-host/src/kernel-link.ts:196-206 | the overall cap drops something in a run if and only if the run exceeds it somewhere |
| LinkProperties.DroppingStopsAtTheCap | packages/agent-host/src/kernel-link.ts:196-206 | an enqueue leaves no more than the cap and drops nothing beyond it |
| LinkProperties.ProtectedFramesAreKept | packages/agent-host/src/kernel-link.ts:15-31 | in a run that stays within the cap every issued `turnEnded`, `turnAccepted`, `turnRejected` or `turnUnknown` that is not acknowledged is still kept |
| LinkProperties.EvictionSparesMessages | packages/agent-host/src/kernel-link.ts:167-184 | an enqueue evicts only text deltas, messages and tool events of its own Turn; a message or tool event only when the Turn has no text delta left; and each time the oldest of those |
| WireProperties.WireOrder | packages/agent-host/src/kernel-link.ts:213-218 | on every connection of every run `hello` comes first and only there, then issued frames with strictly rising numbers |
| WireProperties.NothingKeptIsUnsent | packages/agent-host/src/kernel-link.ts:246-261 | whatever is kept has been written to the connection in use while it is open |
| WireProperties.OpeningReplays | packages/agent-host/src/kernel-link.ts:258-261 | a connection that opens has been sent `hello` and exactly the kept frames in order |
| WireProperties.AckCoversOnlyWhatWasSent | packages/agent-host/src/kernel-link.ts:221-223 | a cumulative ack of a number sent on a connection covers only frames that connection carried, in spite of gaps and reconnects |
| WireProperties.ProtectedFramesReachTheWire | packages/agent-host/src/kernel-link.ts:15-31 | with a kernel that acks only what it was sent, an issued `turnEnded`, `turnAccepted`, `turnRejected` or `turnUnknown` was written to some connection, is kept, or went for the overall cap |
| LinkEffects.EnqueueWritesOnce | packages/agent-host/src/kernel-link.ts:209-219 | a new frame gets the next number and goes out once, on the connection in use if it is open, and nowhere else |
| LinkEffects.OpeningWrites | packages/agent-host/src/kernel-link.ts:246-261 | only the connection that opens is written to: `hello` and each kept frame, oldest first |
| LinkEffects.OtherEventsWriteNothing | packages/agent-host/src/kernel-link.ts:221-312 | no other event writes anything to any connection |
| LinkEffects.ConnectionInUse | packages/agent-host/src/kernel-link.ts:233-339 | the connection in use is the one begun last until it closes or the bridge is stopped; a stopped bridge begins none, a started one is not started again |
| LinkEffects.ReconnectingReplays | packages/agent-host/src/kernel-link.ts:233-261 | in every state of every run, a new connection that comes up carries `hello`, all that is kept, and whatever is enqueued next |
| UpstreamLimits.ActorState.Prune | packages/llm-proxy/src/admin-limits.ts:92-94 | drops exactly the leading charges that left the window |
| UpstreamLimits.ActorState.Spent | packages/llm-proxy/src/admin-limits.ts:95-95 | the sum of the kept charges |
| UpstreamLimits.ActorState.FindRetryAt | packages/llm-proxy/src/admin-limits.ts:97-106 | the loop finds the charge whose leaving frees enough, else the end of the window |
| UpstreamLimits.ActorState.ChargeNow | packages/llm-proxy/src/admin-limits.ts:90-114 | charges, or refuses with the wait, in terms of the pruned charges |
| UpstreamLimits.ActorState.Leave | packages/llm-proxy/src/admin-limits.ts:136-138 | a slot given up goes to the first waiter, else back |
| UpstreamLimits.UpstreamCallLimiter.Begin | packages/llm-proxy/src/admin-limits.ts:117-130 | a request starts, queues or is refused; which table entry it holds |
| UpstreamLimits.UpstreamCallLimiter.StateOf | packages/llm-proxy/src/admin-limits.ts:74-81 | one entry per administrator, made on first use |
| UpstreamLimits.UpstreamCallLimiter.ForgetIfIdle | packages/llm-proxy/src/admin-limits.ts:83-87 | only an entry that holds nothing is dropped |
| UpstreamLimits.UpstreamCallLimiter.Proceed | packages/llm-proxy/src/admin-limits.ts:131-140 | a request holding a slot is charged, or gives the slot up; the entry goes only when it holds nothing |
| UpstreamLimits.UpstreamCallLimiter.Finish | packages/llm-proxy/src/admin-limits.ts:135-140 | a finished request gives its slot up and the entry goes only when it holds nothing |
| UpstreamLimits.RetryAtIsLeast | packages/llm-proxy/src/admin-limits.ts:97-106 | for a cost within budget, the request fits at a time if and only if that time is not before the computed one |
| UpstreamLimits.WaitIsExact | packages/llm-proxy/src/admin-limits.ts:96-111 | the seconds answered are the least whole number after which the same request is accepted, nothing else being charged |
| UpstreamLimits.AcceptedSomeTimeIff | packages/llm-proxy/src/admin-limits.ts:95-96 | waiting long enough helps a request if and only if its cost is within the whole budget |
| LimiterRuns.ChargingKeepsBudget | packages/llm-proxy/src/admin-limits.ts:90-114 | a charge that fits overspends no window over everything ever charged |
| LimiterRuns.LeavingKeepsSlots | packages/llm-proxy/src/admin-limits.ts:136-139 | handing a slot over or back keeps running, waiters and order in step |
| LimiterRuns.OthersAreAside | packages/llm-proxy/src/admin-limits.ts:72-81 | a step for one administrator leaves every other's entry, calls and history alone |
| LimiterRuns.StepKeepsInv | packages/llm-proxy/src/admin-limits.ts:116-142 | every request begun, resumed or finished keeps the invariant of every administrator |
| LimiterRuns.BudgetHolds | packages/llm-proxy/src/admin-limits.ts:11-14 | in every run on a clock that does not go back, no half-open stretch of `windowMs` is charged more than the budget, forgotten entries included |
| LimiterRuns.BothEndsMaySeeTwice | packages/llm-proxy/src/admin-limits.ts:92-94 | with both ends included the stretch can hold the budget twice: a run for any limits |
| LimiterRuns.BudgetHoldsIff | packages/llm-proxy/src/admin-limits.ts:11-14 | the budget is never overspent in any half-open stretch of a length, in any run, if and only if that length is at most `windowMs` |
| LimiterRuns.SlotsAreRespected | packages/llm-proxy/src/admin-limits.ts:117-140 | in every run `running` is the number of slot holders, within `maxConcurrent`; requests wait only when all slots are held; slots are handed over in queue order |
| LimiterRuns.NobodyIsPassed | packages/llm-proxy/src/admin-limits.ts:119-130 | a newcomer never gets a slot or a charge while somebody waits |
| LimiterRuns.LongestWaitingIsNext | packages/llm-proxy/src/admin-limits.ts:136-137 | a slot given up while others wait goes to the longest waiting |
| LimiterRuns.LiveEntriesStay | packages/llm-proxy/src/admin-limits.ts:83-87 | an entry with a holder or waiter is never dropped or replaced |
| LimiterRuns.ForgottenHasNothingLeft | packages/llm-proxy/src/admin-limits.ts:83-87 | an administrator without an entry has no charge left that still counts |
| LimiterRuns.RefusalSaysWhenToReturn | packages/llm-proxy/src/admin-limits.ts:96-111 | the exact wait, in every reachable state |
| LimiterAdmission.NewcomersAreAdmittedIff | packages/llm-proxy/src/admin-limits.ts:117-140 | in every run a request that comes in starts if and only if a slot is free and the charges of the window allow its cost, waits if and only if no slot is free and the queue has room, and is turned away otherwise; only a start is charged |
| LimiterAdmission.HandedStartsIff | packages/llm-proxy/src/admin-limits.ts:131-140 | a request handed a slot starts if and only if the window allows its cost then; else the slot goes on to the longest waiting |
| ProviderCatalog.MergedIsEffective | packages/llm-proxy/src/catalog.ts:56-85 | the merged listing holds every id exactly once, as the store has it, else as the file has it; the file's ids first, in its order |
| ProviderCatalog.ProviderCatalog.Resolve | packages/llm-proxy/src/catalog.ts:56-85 | the two loops build that listing, file order first |
| ProviderCatalog.ProviderCatalog.Get | packages/llm-proxy/src/catalog.ts:87-89 | finding an id in the listing is looking it up store over file |
| AdminApi.AdminApi.ClearConsoleKeyForNewUpstream | packages/llm-proxy/src/admin-api.ts:530-534 | the key goes, or the request is refused with the key still there |
| AdminApi.AdminApi.RemoveKey | packages/llm-proxy/src/key-store.ts:173-182 | removes the key or leaves it; removing none cannot fail |
| AdminApi.AdminApi.Upsert | packages/llm-proxy/src/provider-store.ts:182-206 | writes the row or leaves the store; reserved ids are refused |
| AdminApi.AdminApi.AssertEnvKeyPairing | packages/llm-proxy/src/admin-api.ts:543-577 | accepts exactly the pairings the rule allows |
| AdminApi.AdminApi.HandlePost | packages/llm-proxy/src/admin-api.ts:799-842 | the whole effect of a create, with each refusal and each failing write |
| AdminApi.AdminApi.HandlePut | packages/llm-proxy/src/admin-api.ts:851-891 | the whole effect of a replace or override, the key cleared first when the upstream changes |
| AdminApi.AdminApi.HandleDelete | packages/llm-proxy/src/admin-api.ts:892-943 | the row goes first, then the key as far as it can be |
| AdminApi.AdminApi.HandleSetSecret | packages/llm-proxy/src/admin-api.ts:1009-1022 | the key is stored for a known provider only |
| AdminApi.AdminApi.HandleClearSecret | packages/llm-proxy/src/admin-api.ts:1023-1032 | does exactly what `SecretCleared` says; what an answered clear leaves, and what is sent after it, is in `AdminEffects.DoneLeaves`, `DoneIff` and `ClearedKeysAreNeverSent` |
| AdminEffects.DoneLeaves | packages/llm-proxy/src/admin-api.ts:799-1032 | what each request answered as done leaves: the row its id stands for, its key, and every other id's row and key unchanged |
| AdminEffects.DoneIff | packages/llm-proxy/src/admin-api.ts:799-1032 | exactly when each request is answered as done |
| AdminEffects.RefusedLeaves | packages/llm-proxy/src/admin-api.ts:530-534 | a refused request changes nothing, but that a create or move whose row could not be written has lost its key |
| AdminEffects.RefusalsAreTrue | packages/llm-proxy/src/admin-api.ts:799-1032 | every refusal names something that is so |
| AdminEffects.PairingIsExact | packages/llm-proxy/src/admin-api.ts:543-577 | the check on environment keys turns a row down if and only if it would add a pair of a live variable and an upstream |
| AdminEffects.OwnCallsPreferTheConsole | packages/llm-proxy/src/admin-api.ts:967-981 | a provider's own call carries the console key, else its variable's, else none |
| AdminEffects.FormsPreferWhatWasTyped | packages/llm-proxy/src/admin-api.ts:593-639 | a call described by a form carries the typed key, else the stored one if the upstream is the provider's, else a variable's if naming it adds no pair |
| AdminEffects.ClearedKeysAreNeverSent | packages/llm-proxy/src/admin-api.ts:1023-1032 | in every run, after a clear answered as done (or a create, a move, a delete that could write the keys) no console key is sent for that id until one is set |
| AdminEffects.SetKeysAreSent | packages/llm-proxy/src/admin-api.ts:1009-1022 | in every run, after a key is answered as set and until it is set, cleared, deleted or moved, every console sending of that id carries exactly that key to that upstream, and its own call sends it |
| AdminKeyProperties.PairsNeverGrow | packages/llm-proxy/src/admin-api.ts:543-577 | no request adds a pair of an environment variable that holds a key and a normalized upstream, over file and store |
| AdminKeyProperties.EnvPairsOverRuns | packages/llm-proxy/src/admin-api.ts:536-542 | nor does any run of requests |
| AdminKeyProperties.EnvKeyGoesWherePaired | packages/llm-proxy/src/admin-api.ts:593-636 | an environment key sent by a test, proxied call or form goes to an upstream its variable is paired with |
| AdminKeyProperties.KeysBelongIff | packages/llm-proxy/src/admin-api.ts:904-924 | a request keeps every console key with the upstream it was entered for, if and only if it is not a delete whose key clear fails over a file entry of another upstream |
| AdminKeyProperties.KeysGoWhereTheyBelong | packages/llm-proxy/src/admin-api.ts:112-120 | over whole runs from any stored providers and keys that belong, a console key, entered now or before, goes only where it was entered for, and an environment key only where it was paired at the start |
| AdminKeyProperties.EnvKeysGoWherePaired | packages/llm-proxy/src/admin-api.ts:112-120 | for environment keys the same in every run from any state, whatever becomes of console keys |
| AdminInterleavings.PartsIff | packages/llm-proxy/src/admin-api.ts:799-943 | with requests in flight together, a step parts a console key from its upstream if and only if a key is written whose provider moved since the check, a row of another upstream is written over a key, or a row goes over a file entry of another upstream with its key still there |
| AdminInterleavings.ForgettingMends | packages/llm-proxy/src/admin-api.ts:904-924 | the key clear of a delete, once it lands, ends what its row left open |
| AdminInterleavings.LockedRunsPartOnlyByDelete | packages/llm-proxy/src/admin-api.ts:851-943 | with one request at a time for each provider and any number of calls, only a delete can part a key from its upstream |
| AdminInterleavings.EnvKeysGoWherePairedTogether | packages/llm-proxy/src/admin-api.ts:536-577 | in every interleaving an environment key goes only where its variable was paired at the start |
| AdminInterleavings.CallIsRightIff | packages/llm-proxy/src/proxy.ts:437-596 | a call's console key belongs where it is sent if and only if the provider has not moved since the call looked it up |
| AdminInterleavings.ConsoleKeysGoWhereEntered | packages/llm-proxy/src/admin-api.ts:112-120 | in every interleaving without such a step or call, a console key goes only where it was entered for |
| AdminInterleavings.MovedBeforeTheKey | packages/llm-proxy/src/admin-api.ts:1009-1016 | a run of the first way: the provider moves between the check and the write of a key |
| AdminInterleavings.KeyBeforeTheRow | packages/llm-proxy/src/admin-api.ts:863-874 | a run of the second: a key is set between what a moving `PUT` sees and its row |
| AdminInterleavings.DeleteExposesTheKey | packages/llm-proxy/src/admin-api.ts:904-914 | a run of the third: between the row and the key of a delete the key goes out to the file's upstream |
| AdminInterleavings.CallAfterAMove | packages/llm-proxy/src/admin-api.ts:949-985 | a run of a stale call: no key is ever out of place, and one goes where it was not entered for |
| AdminRefinement.UninterruptedIsWhole | packages/llm-proxy/src/admin-api.ts:799-1032 | cut at its awaits but not interrupted, every request does in any world exactly what it does as a whole |
| KeyStore.KeyStore.Update | packages/llm-proxy/src/key-store.ts:159-182 | memory and file both take the change over, or neither does; removing nothing writes nothing |
| KeyStore.NoUpdateIsLost | packages/llm-proxy/src/mutex.ts:22-33 | however concurrent calls interleave and writes fail, one is inside at a time, in call order, and memory is what the successful ones make of it |
| KeyStore.ReadsLastSuccess | packages/llm-proxy/src/key-store.ts:148-182 | at any moment of any run, reading a key gives what the last successful call for that id left, or what was on file |
| KeyStore.SomeoneMayBegin | packages/llm-proxy/src/mutex.ts:28-32 | a failed call never blocks the next |
| NetworkFailure.Visitor.Visit | packages/gatekeeper-base/src/network-failure.ts:147-166 | the recursive walk with its one `found` and one `seen` |
| NetworkFailure.FoundIsStrongest | packages/gatekeeper-base/src/network-failure.ts:128-159 | what is found is the strongest signal of the objects visited, read off their own fields: an aborted wait, a TLS code or a break after setup first, then a failure of setup |
| NetworkFailure.ExactOnTrees | packages/gatekeeper-base/src/network-failure.ts:147-166 | on an error that is a tree to depth 8, the answer is the strongest signal of all its objects to that depth |
| NetworkFailure.OrderDoesNotMatter | packages/gatekeeper-base/src/network-failure.ts:161-161 | on such an error the order of `errors` does not matter |
| NetworkFailure.ExactOnShortPaths | packages/gatekeeper-base/src/network-failure.ts:147-166 | the answer is the strongest signal of everything reachable on every graph, shared or cyclic, in which no way down of distinct objects is longer than the depth |
| NetworkFailure.ExactIffUpToNine | packages/gatekeeper-base/src/network-failure.ts:147-155 | the answer is the strongest signal of everything reachable on every graph of a number of objects, shared or cyclic, if and only if that number is at most nine |
| NetworkFailure.TenAreTooMany | packages/gatekeeper-base/src/network-failure.ts:150-155 | what goes wrong from ten on: an object first met at the greatest depth hides what is below it |
| NetworkFailure.ReachableIsReadSafely | packages/gatekeeper-base/src/network-failure.ts:128-166 | on the fields of the objects: on every graph of short ways the answer is `maybe_delivered` if and only if a reachable object is an aborted wait, a TLS error or a break after setup; `not_sent` if and only if none is and one is a failure of setup; none otherwise |
| NetworkFailure.TreesAreReadSafely | packages/gatekeeper-base/src/network-failure.ts:128-166 | the same on trees, of the objects down to the depth |
| NetworkFailure.AnyShapeIsReadSoundly | packages/gatekeeper-base/src/network-failure.ts:128-166 | on every graph the answer is about a reachable object, and a doubt in the error itself is never lost |
| DockerTransport.Transport.Effect | gatekeepers/docker/src/transport.ts:151-156 | one effect call, what it leaves in `done` and `inFlight`, and that a stop answered 304 succeeds |
| DockerTransport.Transport.ServedContainers | gatekeepers/docker/src/transport.ts:99-105 | a listing without the agents' containers |
| DockerTransport.Transport.Compose | gatekeepers/docker/src/transport.ts:269-283 | targets, the calls made, and what is left when one fails |
| DockerTransport.Transport.ActOn | gatekeepers/docker/src/transport.ts:269-283 | one effect call per target in order, up to and including the first that fails |
| DockerTransport.ActsInOrder | gatekeepers/docker/src/transport.ts:269-283 | each call made is for the next target, and only the last can have failed |
| DockerTransport.Transport.Invoke | gatekeepers/docker/src/transport.ts:335-350 | the result and the effect calls of every operation against every sequence of daemon replies |
| DockerTransport.OnlyCheckedContainers | gatekeepers/docker/src/transport.ts:107-138 | every start, stop and restart targets the id of a container whose own labels were read and show no agent |
| DockerTransport.ComposeReportsWhatItDid | gatekeepers/docker/src/transport.ts:269-283 | a successful `compose` acted on exactly the served containers in the wrong state, and says so |
| DockerTransport.NoAgentIsShown | gatekeepers/docker/src/transport.ts:97-105 | no listing, inspect or compose result shows an agent's container, and a listing leaves out no other |
| DockerTransport.VerdictIsExact | gatekeepers/docker/src/transport.ts:166-217 | when a failure is recorded as outcome-unknown, as plain, or frees the key: both directions |
| DockerTransport.PlainFailureChangedNothing | packages/gatekeeper-base/src/gatekeeper-base.ts:119-148 | a failure stored with `outcomeUnknown: false`, or a freed key, means no container changed, whatever the daemon did that cannot be seen, if and only if the failed call never left or its status is not one that may follow the action |
| DockerTransport.MisleadingStatus | gatekeepers/docker/src/transport.ts:173-180 | each such status does mislead: 502 and 504, and 500 to a stop or restart, with the container changed and the failure stored as a plain one |
| DockerTransport.PlainWithoutStatusNeverLeft | gatekeepers/docker/src/transport.ts:200-209 | without a status in play such a failure means the call provably never left |
| DockerTransport.PartialRunIsNeverPlain | gatekeepers/docker/src/transport.ts:190-195 | a failure after a first change is always recorded as one that may have run |
| DockerTransport.RefusalTouchedNothing | gatekeepers/docker/src/transport.ts:111-123 | a refusal made no effect call and named an agent's container |
| DockerTransport.WrappedErrorReadsItsCause | packages/gatekeeper-base/src/gatekeeper-base.ts:124-130 | wrapping an error costs its cause one level of depth and changes nothing else |
| DockerEffects.RestartMakesItsCall | gatekeepers/docker/src/transport.ts:261-268 | a restart of a served container makes exactly its one call and answers what a second look finds, or that it may have run |
| DockerEffects.RestartMakesNoOther | gatekeepers/docker/src/transport.ts:107-123 | it makes none otherwise, and refuses exactly for an agent's container |
| DockerEffects.ReadsAnswer | gatekeepers/docker/src/transport.ts:231-260 | inspect and logs answer what was read and make no effect call |
| DockerEffects.ListingsAreFiltered | gatekeepers/docker/src/transport.ts:97-105 | a listing answers exactly the served containers in the daemon's order |
| DockerEffects.ComposeActsOnWhatItIsFor | gatekeepers/docker/src/transport.ts:130-138 | compose calls exactly the served containers in the wrong state, in listing order, up to the first real failure, and succeeds exactly if none failed and the second listing came |
| DockerEffects.ComposeAnswers | gatekeepers/docker/src/transport.ts:269-283 | and answers their ids and the served containers of the second listing, in order |
| DockerEffects.DoubtIsRecorded | gatekeepers/docker/src/transport.ts:182-217 | an effect call that failed by an aborted wait, a TLS error or a break after setup, without a status, is stored as one that may have run |
| DockerEffects.DeepDoubtIsRecorded | gatekeepers/docker/src/transport.ts:182-217 | the same where such an object is only reachable from the error, on graphs of short ways |
| JsonText.StringRoundTrip | packages/gatekeeper-base/src/operation-digest.ts:48-61 | a quoted string, lone surrogates included, is read back as it was wherever it stands |
| CanonicalJsonProperties.CanonicalReads | packages/gatekeeper-base/src/operation-digest.ts:48-61 | a canonical text is read back as the tree its value stands for, whatever follows it |
| CanonicalJsonProperties.SameTreeSameText | packages/gatekeeper-base/src/operation-digest.ts:53-58 | member order and undefined members do not change the text |
| CanonicalJsonProperties.SameTextIffSameTree | packages/gatekeeper-base/src/operation-digest.ts:46-61 | two values have the same text exactly when they are equal as trees of unordered members |
| CanonicalJsonProperties.ObjectsPrintInOrder | packages/gatekeeper-base/src/operation-digest.ts:53-58 | an object prints its defined members once each, in ascending order of their keys |
| JsonText.BeforeIff | packages/gatekeeper-base/src/operation-digest.ts:55-56 | that order is the one of the first differing code unit, a prefix first |
| StableJsonProperties.StableIsCanonicalIff | packages/gatekeeper-base/src/idempotency-store.ts:120-127 | the params printer gives the canonical text if and only if the value holds no `undefined` at any depth |
| StableJsonProperties.StableIsExactToo | packages/gatekeeper-base/src/idempotency-store.ts:118-135 | so on such params equal text means equal trees and the other way round |
| PagedRead.AddAll | collectors/host-inventory/src/ragflow.ts:208-219 | a page's new items are added once each; an item without an id stops the read |
| PagedRead.ReadAllPages | collectors/host-inventory/src/ragflow.ts:197-237 | the loop is the recursive definition of the read, so it always ends |
| PagedRead.CompleteOrFailed | collectors/host-inventory/src/ragflow.ts:186-196 | against any server, a normal return holds each id of the pages read exactly once, nothing else, and as many as reported |
| PagedRead.FixedListingIsReadExactly | collectors/host-inventory/src/ragflow.ts:162-166 | a fixed listing is returned exactly and in order if and only if it is within reach of `MAX_PAGES`; else the read fails |
| PagedRead.FailuresAreTrue | collectors/host-inventory/src/ragflow.ts:197-237 | against any server, a read that fails names something that is so |
| LineSplitter.AttachedIo.OnData | packages/agent-host/src/container-io.ts:142-152 | one chunk yields the lines of what was left plus the chunk, and keeps the rest |
| LineSplitter.AttachedIo.WriteLine | packages/agent-host/src/container-io.ts:159-162 | one text and a line feed, nothing once closed |
| LineSplitter.AttachedIo.EmitClose | packages/agent-host/src/container-io.ts:133-137 | the close is reported once |
| LineSplitter.AttachedIo.Close | packages/agent-host/src/container-io.ts:169-174 | closed by this side |
| LineSplitter.ChunksDoNotMatter | packages/agent-host/src/container-io.ts:139-152 | lines and rest depend on the chunks only through their concatenation |
| LineSplitter.WrittenValuesAreRead | packages/agent-host/src/container-io.ts:159-162 | the writer's output, in whatever chunks, splits into the written values' texts in order with nothing left |
| LineSplitter.LinesAreThePieces | packages/agent-host/src/container-io.ts:142-152 | every text is cut at its line feeds and nowhere else, and a line is what stands before one, save for one carriage return |
| LogDemux.DemuxDockerLogBuffer | gatekeepers/docker/src/docker-client.ts:105-118 | the loop computes the payloads of the whole frames without an index outside the buffer |
| LogDemux.DemuxInvertsEncoding | gatekeepers/docker/src/docker-client.ts:98-118 | decoding an encoded frame list, with a last frame cut anywhere, gives exactly the whole frames' payloads, if and only if the buffer can hold a header or nothing was cut |
| LogDemux.UnchangedIffUnframed | gatekeepers/docker/src/docker-client.ts:100-106 | output comes back unchanged if and only if it does not start with a whole frame header |
| LogDemux.WholeFramesAreRead | gatekeepers/docker/src/docker-client.ts:98-118 | every buffer is some whole frames and a rest that starts with none; exactly their payloads come back, or the buffer itself where it has no header in front |
| ProcessTree.Group | collectors/host-inventory/src/process-tree.ts:134-139 | each parent's list is its children in order |
| ProcessTree.Expand | collectors/host-inventory/src/process-tree.ts:147-152 | the children not yet visited are found and queued, each once |
| ProcessTree.SubtreeOf | collectors/host-inventory/src/process-tree.ts:127-155 | exactly the pids reachable from the root, each once, root first, on parent pointers of any shape |

## Left out

- HTTP routes, authentication, parsing and schema checks of requests, audit records, log lines and error texts.
- Timers: heartbeat, reconnect backoff, the touch throttle. A connection may be begun, fail or be replaced at any time.
- Parameter and mode checks before a reservation, and `simulate`, `observe` and `revert`: they do not touch the store.
- The in-memory idempotency store: the same functions without a file.
- The rollback of a failed reservation may be interleaved with the next queued write more freely than promises allow; the runs proved about include all the real ones.
- A pi that answers a switch without an id is handled by the handlers as in the code, but the pi of `TurnWorld` never does.
- A line cut in half by a broken stream, whose rest would run into the next line.
- Fractional times and costs in the limiter; the catalog's test results, `models.json` and the health file.
- `upstreamKey` is an arbitrary function of the URL text; nothing depends on how it normalizes.
- The codes and system calls of `network-failure.ts` are kept as classes in the order they are tested, not as strings.
- SHA-256, UTF-8 decoding (the demultiplexer is stated on bytes, the splitter on 16-bit code units), and how a number is printed: a number is its printed text.
- `compose.ls` grouping by project, `timeoutSeconds` and `tail`.
- `buildRagflowObservations` and `unwrapEnvelope`; `/proc` reading: plain per-item mappings.
- The outbound tool filter, the egress reporter's queue and the gate host's build queue: shorter state machines of the same kinds as the ones proved here.
- `packages/llm-proxy/src/proxy.ts` is modelled only by which key a provider's own calls carry; whether a provider is enabled or routable is not, so more calls are covered than can happen.
