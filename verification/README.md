# Verified models of the orchestration and of the LLM gateway

This project models, in Dafny, how bug-fix workers are started, supervised and fed, and how the gateway in front
of the language models records and replays their calls; and it proves what these parts promise over whole runs,
with crashes wherever the program can stop.

Check everything with `dafny verify dfyconfig.toml`.

## What is modelled

**Record and replay.** `Json`, `Sorting`, `Canonical` and `Keying` take a request body to its cache key, and
`KeyReads` says by name which edits of a request change it; `Billing` prices a response; `ResponseCache` is the table,
its two statements and the tool that ships it between machines; `Gateway` serves one request in one of the four modes,
with the retry loop; `ReplayRuns` puts a deterministic worker in front of it and compares whole runs. The main result
is `ReplayRefinesRecording`: a rerun gives the same answers without one upstream call although assistant turns are no
part of the key. `RerunExact` and `ReplayExactly` say exactly when a run repeats, storage faults included.

**Stream consumption.** `Consumer` steps through the orchestrator's consumer one await at a time, with a fault or a
death possible at each, and proves at-least-once handling in every reachable state; the same file has the processing
of an entry, the startup drain and a turn of the main loop as methods and shows that each, when the process survives
it, is a run of the steps.

**distr-pull.** `Streams` is Redis streams with groups; `DistrPull` is the protocol of dispatcher, recovery loop and
daemons as one machine, in which every submitted task stays held but for two kinds of steps; `RoundRobin` and
`Dispatch` are the dispatcher's choice, its fairness and its queues; `Recovery` has the recovery loops, whose
contracts say exactly which tasks are owed afterwards and that each loop is a run of that machine; `DaemonInbox` is a
daemon's turn on its inbox and the way of a refused task to the next daemon; `Admission` is a daemon's slots.

**Worker lifecycle.** `Lifecycle` has registry, spawner and health monitor as classes and bounds the life of a bug;
`ExitProtocol` is the race between a worker's exit and the monitor's reads.

**Other parts.** `TokenRefresh` (bearer tokens), `Jwks` (key refetch throttle), `Branches` and `Webhooks` (bug ids,
fix branches, events, classification, routing), `Exposition` and `RunMetrics` (journal metrics), `PhaseLog` (timelines
and their statistics).

## How the models are built

State machines (`Consumer`, `DistrPull`, `Admission`, `ExitProtocol`, `TokenRefresh`) have one step per await or
command, so that an invariant that every step keeps covers every interleaving. Code that updates objects is a class
whose methods tie the new state to a specification function; loops in the program are loops here. Redis, SQLite, the
network, processes and clocks are parameters: what they answer is universally quantified, including their failures
where the program handles them.

## Where the code falls short of what is promised

These are properties a reader would expect and that hold only under a condition; the members named state the failing
case or the exact condition.

- Entries left pending after the startup drain are not retried by the main loop, contrary to what the drain logs
  (orchestrator/consumer.py:207-209): `Consumer.PendingUntilRestart`.
- Recovery of a dead daemon deletes its inbox with any unread entries (orchestrator/daemon_monitor.py:203-207):
  `DistrPull.RecoveryLosesUnread`, `DistrPull.DropLoses`; `Recovery.DaemonMonitor.RecoverInbox` says exactly what is
  kept.
- A retried task is put back to the pending stream without its group being created
  (orchestrator/dispatcher.py:304-306), and a group made later starts after it: `DistrPull.RetryNeedsPendingGroup`,
  `DistrPull.FirstTickLosesRetried`. The first recovery tick does this, since dead daemons are recovered before the
  pending queue is opened.
- A group creation that fails for any reason is taken for one that found the group there
  (orchestrator/dispatcher.py:250-258 and 271-278, bf_worker/worker_daemon.py:337-344); if the entry is then added, a
  group made later starts after it: `DistrPull.FailedCreationLoses`.
- A heartbeat key that outlives a killed worker makes its replacement look alive; if it lapses before the replacement
  reports, that one looks dead. A completion key that cannot be set makes a finished worker look dead:
  `ExitProtocol.RaceFreeExactly`, `ExitProtocol.DoneExactly`.
- A bug accepted twice on one daemon hides a live worker, and an acknowledgement that raises leaves one unreaped:
  `Admission.DuplicateHidesWorker`, `Admission.ReapedExactly`.
- A lookup that raises in cache mode is taken for a miss, and the answer then overwrites what was stored:
  `ReplayRuns.OverwrittenExactly` for one request, `ReplayRuns.NothingLostExactly` and `ReplayRuns.CarriesExactly` for
  whole runs.
- A dry run of the cache import refuses a missing target that the real import would create
  (tools/llm_cache_transfer.py:200-243): `ResponseCache.DryRun`.
- A cancelled caller leaves its token mint running, so as many mints can overlap as callers were cancelled, and one
  more: `TokenRefresh.OverlapExactly`.
- The gateway's classifier and the parser differ on payloads that lack what the parser reads: `Webhooks.BugReportsAgree`.

## Model

| member | source | states |
|---|---|---|
| `Json.PrintInjective` | llm_gateway/keying.py:264-265 | The compact text json.dumps writes determines the value: two decoded values have the same text iff they are the same value. |
| `Json.PrintCancel` | llm_gateway/keying.py:264-265 | Texts of values are self-delimiting: if two texts that start with a complete value agree, the values and what follows agree. |
| `Json.IntTextInjective` | llm_gateway/keying.py:264-265 | Two integers are written alike only if they are equal, sign included. |
| `Sorting.SortEqual` | llm_gateway/keying.py:222-228 | Stable sorting by name makes two lists equal iff they hold the same elements under each name in the same order. |
| `Sorting.SortPermutation` | llm_gateway/keying.py:222-228 | Sorting forgets the order of elements with distinct names. |
| `Canonical.CanonEqual` | llm_gateway/keying.py:264-265 | Sorting members at every level identifies two values iff they are equal up to member order. |
| `Canonical.DumpsEqual` | llm_gateway/keying.py:264-265 | dumps with sort_keys gives the same text iff the values are equal up to member order. |
| `Keying.NormalizeMessages` | llm_gateway/keying.py:46-83 | The loop keeps exactly the turns of known non-assistant roles, in order, with content rewritten and the correlation id dropped. |
| `Keying.NormalizeTools` | llm_gateway/keying.py:210-228 | The loop keeps the tool objects and sorts them by name, stably. |
| `Keying.NormalizeParams` | llm_gateway/keying.py:231-240 | The loop keeps the listed generation parameters, absent ones left out. |
| `Keying.SameKey` | llm_gateway/keying.py:243-266 | Two bodies share a cache key iff model, external messages, name-sorted tools and listed parameters are equal as JSON values up to member order. |
| `Keying.SameView` | llm_gateway/keying.py:46-83 | The message part is equal iff, assistant and unknown turns left out, the turns agree one by one on role, content and name. |
| `Keying.TurnErased` | llm_gateway/keying.py:64-72 | An assistant turn anywhere in the list is no part of the key. |
| `Keying.MemberErased` | llm_gateway/keying.py:43-83 | A message member other than role, content and name, such as tool_call_id, can be replaced without changing the turn. |
| `Keying.KeyUnchanged` | llm_gateway/keying.py:243-266 | The key is unchanged by edits of assistant turns, correlation ids and unlisted parameters, by any reordering of tools that keeps the order under each name, and by text the rewriter erases. |
| `Keying.SameToolPart` | llm_gateway/keying.py:210-228 | The tool part of the key is equal iff the tools are the same name by name, in order under each name; nameless tools count as one name. |
| `Keying.ToolsInAnyOrder` | llm_gateway/keying.py:210-228 | Tools with distinct names are the same in any order. |
| `KeyReads.TurnCounts` | llm_gateway/keying.py:62-72 | Adding a turn, at any place in the list, changes the key iff the turn is an object whose role is the string system, user or tool. |
| `KeyReads.TurnDecides` | llm_gateway/keying.py:64-83 | Replacing one system, user or tool turn by another keeps the key iff the two agree on role, on content (a string after rewriting when that is switched on, a missing one being null) and on name. |
| `KeyReads.ToolsShuffled` | llm_gateway/keying.py:221-228 | Function declarations with distinct names share a key in any order. |
| `KeyReads.ToolCounts` | llm_gateway/keying.py:215-220 | Adding an object to the tools changes the key; anything else in the list is not read. |
| `KeyReads.MemberDecides` | llm_gateway/keying.py:231-266 | Of two bodies that differ in one member: when it is one of the ten generation parameters, by name, they share a key iff its values agree, absence included; when it is the model, iff the models agree; any other member but messages and tools never matters. |
| `Billing.DialectsAgree` | llm_gateway/cost.py:42-110 | The OpenAI-shaped and the Vertex-shaped report of one call give the same usage, with every generated token billed once. |
| `Billing.WhatIsReported` | llm_gateway/cost.py:77-110 | Absent counts read as none, and without reasoning tokens the completion is the reported one. |
| `Billing.FoldSound` | llm_gateway/cost.py:42-75 | Folding adds reasoning to the completion iff the body's own total demands it, so it never bills what the body does not account for. |
| `Billing.UnitPrices` | llm_gateway/config.py:55-70 | A million tokens of one kind cost exactly that kind's rate: input, output or cached. |
| `Billing.CostAdds` | llm_gateway/config.py:55-70 | Two calls together cost what they cost apart; with the unit prices this leaves one possible tariff. |
| `Billing.CachedClamped` | llm_gateway/config.py:55-70 | A cached count below zero counts as none, one above the prompt as the whole prompt. |
| `Billing.ParsePricing` | llm_gateway/config.py:222-250 | A pricing block is refused iff a rate is not numeric or negative; an accepted one carries each given rate under its own name, 0 for a missing input or output rate and no cached rate for a missing one. |
| `Billing.CostMonotone` | llm_gateway/config.py:55-70 | Cost is non-negative and grows with prompt and completion, for any reported cached count. |
| `Billing.CachedDiscount` | llm_gateway/config.py:55-70 | Reporting cached tokens does not raise the bill iff the cached rate is at most the input rate or nothing of the prompt counts as cached. |
| `ResponseCache.Cache.Get` | llm_gateway/cache.py:158-199 | A lookup returns the stored row with its hit count raised, misses iff the key is absent, and each of the three counters moves only for its own case, faults included. |
| `ResponseCache.Cache.Put` | llm_gateway/cache.py:201-241 | Recording replaces the row but keeps its hit count; a failing write changes nothing but the error counter. |
| `ResponseCache.Import` | tools/llm_cache_transfer.py:200-243 | The batched import loop equals a one-shot merge of the two tables under the overwrite policy, and reports the true counts. |
| `ResponseCache.MergeSize` | tools/llm_cache_transfer.py:215-243 | The merge grows the table by exactly the rows announced as new; new and already present make up the incoming rows. |
| `ResponseCache.DryRun` | tools/llm_cache_transfer.py:200-232 | A dry run announces the counts of the real merge; it refuses iff the target does not exist. |
| `ResponseCache.DryRunThenImport` | tools/llm_cache_transfer.py:200-243 | What the dry run announces is what the import into the same table then does. |
| `ResponseCache.MergeAssociative` | tools/llm_cache_transfer.py:215-243 | Merging in stages or at once gives the same table, under either policy. |
| `ResponseCache.MergeIdempotent` | tools/llm_cache_transfer.py:215-243 | Importing the same export twice changes nothing the second time. |
| `ResponseCache.MergeKeepsLocal` | tools/llm_cache_transfer.py:215-243 | No key is lost; without overwrite a local row stays as it is; with it the incoming row wins but for the hit count, which is the larger of the two; a row only the export holds comes in unchanged. |
| `ResponseCache.Export` | tools/llm_cache_transfer.py:161-197 | The fresh file holds exactly the rows the filters select, unchanged; it refuses iff the output exists. |
| `ResponseCache.ShipWholeCache` | tools/llm_cache_transfer.py:161-243 | Export into a fresh file and import into an empty cache is the identity. |
| `ResponseCache.HitsNeverFall` | llm_gateway/cache.py:158-241 | Over any history of lookups, recordings and imports no key disappears and no key's hit count falls. |
| `ResponseCache.HitsCounted` | llm_gateway/cache.py:158-241 | Without imports a stored key's hit count grows by exactly the number of its lookups, recordings in between or not. |
| `Gateway.Forward` | llm_gateway/app.py:599-709 | Posts until one is neither unreachable nor answered with 429, 500, 502, 503 or 504, at most three times, none without a token; the outcome is that of the last post made, a success below status 400. |
| `Gateway.App.ChatCompletions` | llm_gateway/app.py:273-493 | In every mode and under any storage fault the handler's reply, the table, the forwards and the booked money are those of the mode machine. |
| `Gateway.WhoAnswers` | llm_gateway/app.py:294-379 | Replay mode never calls the upstream, cache mode calls it once on a miss, the other two modes always; a stored reply is answered with its own status and booked as saved; a replay miss, a lookup that raises included, is answered with the miss status, changes nothing and costs nothing. |
| `Gateway.WhatIsSaved` | llm_gateway/app.py:325-343 | A hit books the stored reply's tokens at the rates of the backend that gave it, nothing when that backend is unnamed, unknown or unpriced or the reply reports no usage. |
| `Gateway.WhatIsAnswered` | llm_gateway/app.py:389-493 | A forwarded request answers the upstream's reply, or 502 when there is none, and costs the reported tokens at the rates of the backend the attempt number leads to, nothing without a report or rates. |
| `Gateway.WhatIsStored` | llm_gateway/app.py:421-437 | The table changes in two ways only: record mode, and cache mode on a miss, put an upstream success under the request's key, keeping its hit count; a hit raises a hit count by one. |
| `ReplayRuns.ReplayRefinesRecording` | llm_gateway/app.py:301-379 | A second run in cache or replay mode over a table that carries the first run's rows gives the same replies with no upstream call, spends nothing and saves exactly what the first run spent and saved, for any worker whose requests have the same keys. |
| `ReplayRuns.CallsMakeRows` | llm_gateway/app.py:425-437 | In cache mode, whatever fails, each upstream call pays for one new row except the wasted ones: those that failed, whose put raised, or whose key was stored and its lookup raised. |
| `ReplayRuns.EveryCallAddsARow` | llm_gateway/app.py:425-437 | With no failed call and working storage none is wasted: each call adds a row and every stored recording stands. |
| `ReplayRuns.OverwrittenExactly` | llm_gateway/cache.py:158-241 | A request in cache mode overwrites a stored recording iff its lookup raises, the put works, its key is stored, and the upstream answers with another text, status or backend than is recorded; a condition on the table, the request, the upstream and the faults alone. |
| `ReplayRuns.NothingLostExactly` | llm_gateway/app.py:301-437 | Over a whole cache-mode run no recording, found or made, is ever lost iff no request of the run meets that condition in the table it finds. |
| `ReplayRuns.CarriesExactly` | llm_gateway/app.py:301-437 | After a whole cache-mode run the recordings it started from stand iff under each of their keys nothing was put after a failed lookup, or what was put last is what was there. |
| `ReplayRuns.LostToAFailedLookup` | llm_gateway/cache.py:158-199 | A run of two equal requests from an empty table in which the second lookup raises and the first recording is gone. |
| `ReplayRuns.RerunExact` | llm_gateway/app.py:301-437 | A run in any mode, whatever failed in it, is repeated answer for answer in cache mode for every later upstream iff the table it left tells it. |
| `ReplayRuns.ToldRunRepeats` | llm_gateway/app.py:301-379 | A table that tells a run repeats it in cache or replay mode without an upstream call. |
| `ReplayRuns.UntoldRunDiffers` | llm_gateway/app.py:301-437 | A run the table does not tell comes out differently for some upstream. |
| `ReplayRuns.ToldUnlessFailed` | llm_gateway/app.py:425-437 | With working storage a cache-mode run is told by its table iff none of its calls failed; failing hit-counter updates do not matter. |
| `ReplayRuns.FailureNotReplayed` | llm_gateway/app.py:425-437 | A run with a failed call is not repeated once the upstream has recovered. |
| `ReplayRuns.LastRecordingStays` | llm_gateway/app.py:425-437 | In record mode the table ends with the last answer given to each key. |
| `ReplayRuns.ReplayTells` | llm_gateway/app.py:301-379 | Strict replay from a table holding all keys repeats a run, whatever failed in that run, iff each stored reply is the run's. |
| `ReplayRuns.ReplayIsFree` | llm_gateway/app.py:345-379 | In replay mode, whatever the table holds and whatever fails, a whole run calls no upstream, spends nothing and keeps every recording. |
| `ReplayRuns.ReplayExactly` | llm_gateway/app.py:301-379 | Strict replay from any table, lookups raising or not, repeats any run iff at each request it answers the run's reply: what is stored, or the miss reply when nothing is stored or the lookup raises. |
| `ReplayRuns.ReplayOfSuccesses` | llm_gateway/app.py:301-379 | A run all of whose replies are successes is repeated by strict replay iff the table tells it and no lookup raises; no key is assumed to be there. |
| `ReplayRuns.RecordedRunReplays` | llm_gateway/app.py:301-437 | A recorded run is replayed exactly iff it never gave one key two different answers, as when its keys are distinct. |
| `ReplayRuns.TellsOneAnswer` | llm_gateway/app.py:301-437 | A table with the last answer to each key tells the run iff each key has one answer. |
| `ReplayRuns.AlikeByKey` | llm_gateway/keying.py:243-266 | Workers whose requests differ only in what the key ignores are alike, so the run theorems hold across them. |
| `ReplayRuns.ConfigurationsExist` | llm_gateway/app.py:301-379 | There are configurations the run theorems speak of: any backends, with a loads that undoes dumps. |
| `Consumer.StepKeeps` | orchestrator/consumer.py:109-238 | Every step of the consumer, a crash or fault at any await included, keeps the partition of the stream and loses no acknowledged entry. |
| `Consumer.AtLeastOnce` | orchestrator/consumer.py:109-169 | In every reachable state each entry is exactly one of undelivered, pending and acked, and every acked entry was handled or has a dead-letter copy with its data and id. |
| `Consumer.DeathAnywhere` | orchestrator/consumer.py:145-238 | In every reachable state a live process can die at the await it is in, with or without the effect of the command it waits for. |
| `Consumer.PendingUntilRestart` | orchestrator/consumer.py:145-209 | An entry still pending after the drain stays pending until the process starts again: the main loop never retries it. |
| `Consumer.PassedOverIsReached` | orchestrator/consumer.py:145-169 | Such an entry comes about: its handler raises and its dead-letter write fails in the main loop. |
| `Consumer.NeverPassedOver` | orchestrator/consumer.py:145-238 | While no read, ack or dead-letter write fails and the process lives, no entry the main loop reads is ever passed over, however its handler fares. |
| `Consumer.StreamConsumer.ConsumeOnce` | orchestrator/consumer.py:145-169 | One turn of the main loop does what its specification says, for reads that reply and reads that raise. |
| `Consumer.ConsumedCalls` | orchestrator/consumer.py:145-163 | A turn whose read replies calls the handler once for each of the oldest undelivered entries, at most count of them, in order, whatever fails for the single entries; a turn whose read raises calls it for none. |
| `Consumer.ConsumedReliable` | orchestrator/consumer.py:145-238 | With Redis replying a turn leaves pending what was pending and acknowledges every entry it read, each handled, or with its data and id in the dead-letter stream. |
| `Consumer.StreamConsumer.ProcessEntry` | orchestrator/consumer.py:211-238 | Handler, then ack; or dead letter, then ack; each failing write leaves the entry pending. |
| `Consumer.StreamConsumer.DrainPending` | orchestrator/consumer.py:171-209 | The startup drain does what its pass-by-pass specification says and ends within 100 passes. |
| `Consumer.ProcessAllReliable` | orchestrator/consumer.py:211-238 | With Redis replying, a batch leaves the rest pending, calls the handler once per entry in order and dead-letters exactly those that raised. |
| `Consumer.DrainFrom` | orchestrator/consumer.py:171-209 | From any pass on, the drain works off the first remaining-passes times count entries, in order and once each. |
| `Consumer.DrainBound` | orchestrator/consumer.py:171-209 | The drain empties the pending list iff it started with at most 100 times count entries. |
| `Consumer.ProcessIsSteps` | orchestrator/consumer.py:211-238 | Processing an entry as one call is a run of the step machine, so the two models agree. |
| `Consumer.DrainIsSteps` | orchestrator/consumer.py:171-209 | The whole drain as one call, reads that raise included, is a run of the step machine from its first read to the main loop. |
| `Consumer.StartIsSteps` | orchestrator/consumer.py:109-143 | A process that starts runs the whole drain, from its first pass, before it reads anything new. |
| `Consumer.ConsumeIsSteps` | orchestrator/consumer.py:145-169 | A turn of the main loop as one call is a run of the step machine from reading back to reading: one read, then only handlers and commands on what it returned. |
| `Streams.RejectedFields` | bf_worker/worker_daemon.py:344-352 | A rejected entry carries the same five task fields, whatever reason and daemon are added. |
| `DistrPull.GroupFirst` | orchestrator/dispatcher.py:304-306 | An entry is owed once the group exists iff the group was created before it was added. |
| `DistrPull.StepKeeps` | orchestrator/dispatcher.py:232-308 | Every step of dispatch, read, accept, reject, retry, claim, failure, crash and recovery keeps every task held that no step put at risk. |
| `DistrPull.ConfirmKeeps` | orchestrator/daemon_monitor.py:270-307 | An acknowledgement takes no task away: whatever relied on the entry can rely on a newer copy, because every path adds before it acks. |
| `DistrPull.TasksConserved` | orchestrator/dispatcher.py:122-151 | After any run, with any crashes and failures, each submitted task was started by a worker or some stream still owes an entry with its five fields, unless a step put it at risk: it was added to a stream without its group, or owed by an inbox when that was deleted. Nothing started or owed differs from what was submitted. |
| `DistrPull.CarefulRisksNothing` | orchestrator/daemon_monitor.py:129-207 | A run puts nothing at risk when inboxes are deleted only when quiet, retried tasks go to pending only once its group exists, and a failed group creation means the group is there. |
| `DistrPull.RetryNeedsPendingGroup` | orchestrator/dispatcher.py:289-308 | A retried task put back to pending stays held iff the pending group existed first, or something else holds it: spawn_raw adds without creating the group. |
| `DistrPull.DropLoses` | orchestrator/daemon_monitor.py:203-207 | Deleting an inbox leaves a task held iff it was started or another stream owes it. |
| `DistrPull.RecoveryLosesUnread` | orchestrator/daemon_monitor.py:152-207 | The run that loses a task: of two requests in a dead daemon's inbox the one it had read is recovered, then the inbox goes with the other. |
| `DistrPull.FirstTickLosesRetried` | orchestrator/daemon_monitor.py:96-100 | The run that loses a retried task: the first recovery tick, no daemon free, the pending group not made yet. |
| `DistrPull.FailedCreationLoses` | orchestrator/dispatcher.py:250-258 | When a group creation fails, is taken for BUSYGROUP and the entry is added, the task is held iff the group was there after all or something else holds it. |
| `RoundRobin.TakeNearest` | orchestrator/dispatcher.py:155-204 | The choice is nobody iff no cached daemon is able; otherwise it is the able daemon nearest ahead of the pointer, which then stands just past it. |
| `RoundRobin.NoStarvation` | orchestrator/dispatcher.py:155-204 | A daemon that stays able is chosen within n calls, however the others change. |
| `RoundRobin.FairWindow` | orchestrator/dispatcher.py:155-204 | While the able set of size k is fixed, any k consecutive choices choose each able daemon exactly once. |
| `Dispatch.FetchedAre` | orchestrator/dispatcher.py:206-228 | A refreshed cache holds exactly the registered daemons whose heartbeat hash is there. |
| `Dispatch.Dispatcher.MaybeRefreshCache` | orchestrator/dispatcher.py:206-228 | The cache is refetched iff it is older than its TTL; the pointer is untouched. |
| `Dispatch.Dispatcher.ChooseDaemon` | orchestrator/dispatcher.py:155-204 | The scan loop takes the turn the round-robin specification takes on the daemons in id order. |
| `Dispatch.ChosenIsEligible` | orchestrator/dispatcher.py:80-90 | A daemon is chosen iff some cached report has a heartbeat above 0, more than 0 free slots and at least the memory asked for, and then the chosen daemon has such a report. |
| `Dispatch.ChooseAll` | orchestrator/dispatcher.py:155-228 | Any sequence of calls of one dispatcher, its cache refreshed in between when stale, makes the choices of the round-robin specification. |
| `Dispatch.UpcomingArePicks` | orchestrator/dispatcher.py:155-228 | The choices of the dispatches inside the recovery loops are those of the same round-robin specification. |
| `Dispatch.SamePlaces` | orchestrator/dispatcher.py:159-164 | Caches of the same daemons give each id the same place, whatever they report and in whatever order they were fetched. |
| `Dispatch.AbleIsChosen` | orchestrator/dispatcher.py:155-204 | Over as many calls as there are daemons, a daemon that every cache reports alive, with a free slot and enough memory, is chosen, whatever happens to the others and to the cache. |
| `Dispatch.SameRing` | orchestrator/dispatcher.py:169-198 | While the able daemons stay the same by id every call sees the same ring. |
| `Dispatch.FairById` | orchestrator/dispatcher.py:155-204 | While the same daemons are registered and the same k ids able, cache refreshed in between or not, any k calls in a row choose each of these ids exactly once and no other. |
| `Dispatch.Dispatcher.Spawn` | orchestrator/dispatcher.py:122-141 | The task goes to the chosen inbox, or to pending, after its group exists, with all five fields. |
| `Dispatch.Dispatcher.SpawnRaw` | orchestrator/dispatcher.py:289-308 | A recovered task goes to the chosen inbox, or back to pending as it is; it raises iff a daemon is chosen and the bug id is missing. |
| `Dispatch.Redis.ReadNew` | orchestrator/daemon_monitor.py:248-256 | Reading new entries hands out the oldest undelivered ones, at most count, and changes nothing that is owed. |
| `Dispatch.ShiftedOwes` | orchestrator/daemon_monitor.py:187-195 | Dispatching an entry again and then acking it changes no task that is owed. |
| `Recovery.DaemonMonitor.Redispatch` | orchestrator/daemon_monitor.py:262-273 | A loop over delivered entries leaves none of them owed and every task owed, also when a dispatch raises half way; each entry's copy, with its five fields, stands in the inbox the dispatcher's next call chooses, or in pending; from any state of the protocol machine with these streams it is a run of that machine. |
| `Recovery.DaemonMonitor.RetryStream` | orchestrator/daemon_monitor.py:219-307 | A retry pass keeps the set of owed tasks exactly, takes the oldest new entries, ten at most, besides the claimed ones, and puts a copy of each where the dispatcher's calls choose; group creation, claims, reads and dispatches together are a run of the protocol machine, however the pass ends. |
| `Recovery.DaemonMonitor.RecoverInbox` | orchestrator/daemon_monitor.py:129-207 | Recovery of a dead daemon owes afterwards exactly the tasks that something other than its unread entries owed before; with nothing delivered it changes nothing; and it is a run of the protocol machine, the deletion included. |
| `Recovery.SpawnIsSteps` | orchestrator/dispatcher.py:122-151 | A dispatch made as one call leaves the streams as the four steps of the protocol machine do. |
| `Recovery.RetryIsSteps` | orchestrator/daemon_monitor.py:262-273 | One round of a recovery loop, whoever is chosen, is a run of the protocol machine that changes nothing but the streams: add the new copy, then ack the old. |
| `DaemonInbox.Daemon.HandleNext` | bf_worker/worker_daemon.py:205-353 | One turn of a daemon's inbox loop takes the oldest unread entry and refuses it iff no slot is free or too little memory is. Accepted: a worker is started with its five fields, the inbox owes it no more, no stream gets an entry. Refused: the inbox owes it no more, and the rejected stream alone gets one entry, with the five fields, the daemon's name and the reason. Either is a run of the protocol machine. |
| `DaemonInbox.Daemon.Accept` | bf_worker/worker_daemon.py:282-317 | An acceptance records the bug, starts the worker and acks the entry; one without a bug id, or whose start raises, leaves the entry pending and starts nothing. |
| `DaemonInbox.StartIs` | bf_worker/worker_daemon.py:285-301 | The worker is started with what the entry holds under its five names, a missing one but the bug id being empty. |
| `DaemonInbox.Daemon.Reject` | bf_worker/worker_daemon.py:322-353 | A rejection adds the entry to the rejected stream, its group created first if that works, then acks it. |
| `DaemonInbox.HandOver` | orchestrator/daemon_monitor.py:213-273 | After a daemon's refusal and the orchestrator's next pass over the rejected stream the task is owed by the inbox of the daemon the dispatcher chose for it, or by pending if it chose nobody, unless ten older rejected tasks came first. |
| `DaemonInbox.UpcomingAreAble` | orchestrator/dispatcher.py:155-204 | Each of the dispatcher's calls chooses a daemon that the cache it works with reports able, and nobody only if it reports none. |
| `Admission.NeverOverfull` | bf_worker/worker_daemon.py:205-268 | In every interleaving of the inbox loop with reap tasks at most concurrency workers are recorded and advertised free slots are in 0..concurrency. |
| `Admission.SlotsFollowProcesses` | bf_worker/worker_daemon.py:282-374 | When no bug is offered while active: live processes are recorded workers, at most concurrency; every process is recorded or has freed its slot, once; no reap task fails. |
| `Admission.DuplicateHidesWorker` | bf_worker/worker_daemon.py:306-311 | Recording a second worker for an active bug keeps every live process recorded iff the first has exited. |
| `Admission.DuplicateOverloads` | bf_worker/worker_daemon.py:282-320 | Without the no-duplicates condition three live workers can run on two slots. |
| `Admission.ReapedExactly` | bf_worker/worker_daemon.py:316-320 | From any accepted worker, its slot can be given back iff the acknowledgement of its task does not raise: only then is its reap task created. |
| `Admission.WorkerDaemon.InboxLoop` | bf_worker/worker_daemon.py:205-353 | The inbox loop over any entries, with any reaping and exiting between its awaits and any exception, a rejection that raises included, is a run of the machine and never records more workers than the concurrency. |
| `Lifecycle.Registry.UpdateStatus` | orchestrator/registry.py:29-46 | The status changes and done_at is stamped on the first terminal transition only. |
| `Lifecycle.Registry.SweepStale` | orchestrator/registry.py:60-93 | The loop drops exactly the terminal entries past the grace period, counts them, and leaves all_active as it was. |
| `Lifecycle.WorkerSpawner.Spawn` | orchestrator/spawner.py:25-36 | A bug that is active is not started again; otherwise one process is started and registered with restart count 0. |
| `Lifecycle.WorkerSpawner.Restart` | orchestrator/spawner.py:38-59 | A replacement is registered with one more restart for the same request; a failing start changes nothing. |
| `Lifecycle.HealthMonitor.CheckAll` | orchestrator/monitor.py:66-140 | One pass gives each active entry its next state independently, and starts a process exactly for those that relaunch. |
| `Lifecycle.HealthMonitor.Restart` | orchestrator/monitor.py:142-167 | At the cap, or when the start raises, the entry fails; otherwise it is replaced. |
| `Lifecycle.ChangeLowers` | orchestrator/monitor.py:66-167 | Every change a tick makes strictly lowers 3*(MAX_WORKER_RESTARTS - restart_count) + rank. |
| `Lifecycle.RestartsTerminate` | orchestrator/models.py:38-62 | From its spawn on a bug's entry changes at most 11 times and is launched at most 1 + MAX_WORKER_RESTARTS times; restart_count is launches minus one; done_at is set iff terminal. |
| `Lifecycle.LookDecides` | orchestrator/monitor.py:84-167 | What one look does, by what it finds: done iff the worker exited with 0, or its completion key is there and it exited or fell silent while running; started again iff it is gone otherwise, fewer than three restarts were made and starting works; failed iff it is gone for good, or silent 120 seconds after its start; untouched else. |
| `Lifecycle.TerminalStays` | orchestrator/registry.py:29-58 | Terminal states are absorbing and done_at never moves. |
| `Lifecycle.BoundReached` | orchestrator/models.py:38-38 | The launch bound is met by a worker that always dies. |
| `Lifecycle.TickIsLook` | orchestrator/monitor.py:66-140 | The registry after a pass, read at one bug, is that bug's next life; sweeping takes no active entry. |
| `ExitProtocol.FinisherKept` | bf_worker/bf_worker.py:118-164 | In every interleaving over any number of incarnations, relaunches under a killed predecessor's key included: while no check finds a running entry's heartbeat lapsed before its incarnation reported, and the completion key is set when due, an incarnation that chose to finish is never being replaced. |
| `ExitProtocol.DoneMeansChosen` | bf_worker/bf_worker.py:255-279 | In every such interleaving, the completion key failing or not, a bug is done only if its incarnation chose to finish, not when it was interrupted or killed before. |
| `ExitProtocol.CleanNeverLapses` | orchestrator/monitor.py:109-140 | Waiting for a predecessor's key to be gone before each launch rules out that a check meets a lapse. |
| `ExitProtocol.LapseFails` | orchestrator/monitor.py:109-140 | A check that finds a running entry's heartbeat lapsed before its incarnation reported lets a finisher be replaced, and lets a killed successor look finished. |
| `ExitProtocol.LostKeyReplacesFinisher` | bf_worker/bf_worker.py:154-161 | A completion key that fails to be set lets a finished incarnation be replaced. |
| `ExitProtocol.CheckIsJudge` | orchestrator/monitor.py:76-140 | A check made read by read, with nothing in between, comes to the verdict of the monitor's decision on one entry. |
| `ExitProtocol.UnfinishedIsReplaced` | bf_worker/bf_worker.py:118-164 | An incarnation killed, or signalled before its teardown tests the flag, without having chosen to finish never gets a completion key and is never taken for done while it lasts, whatever happens; it exits with 143 or -9, and a check that then sees the exit code sets out to replace it. |
| `ExitProtocol.TeardownRuns` | bf_worker/bf_worker.py:118-164 | The teardown runs to the exit: completion key unless interrupted, heartbeat, exit; an interrupted one exits with 143, and a signal after the flag was tested leaves the heartbeat there. |
| `ExitProtocol.FinisherIsDone` | orchestrator/monitor.py:76-108 | With no lapse and the key set when due, an incarnation that chose to finish is taken for done by the first check that sees it gone. |
| `ExitProtocol.ReplacementIsFresh` | orchestrator/monitor.py:142-167 | A replacement starts as a first launch does, with no signal, report or choice of its predecessor's, under whatever keys are left. |
| `ExitProtocol.GivingUpFails` | orchestrator/monitor.py:148-167 | When the cap is reached or starting a replacement raises the bug is failed. |
| `ExitProtocol.RaceFreeExactly` | orchestrator/monitor.py:76-140 | A finisher can be replaced iff a check may meet such a lapse or the completion key may fail to be set. |
| `ExitProtocol.DoneExactly` | orchestrator/monitor.py:76-140 | A bug can be done without its incarnation having chosen to finish iff a check may meet such a lapse. |
| `TokenRefresh.SingleFlight` | llm_gateway/azure_auth.py:90-123 | At most one awaited mint runs; a mint starts only on a cached token absent or within 300 s of expiry at the check under the lock; every cached answer had more left; mints are at most one more than the times a token went stale. |
| `TokenRefresh.OverlapExactly` | llm_gateway/azure_auth.py:97-107 | With at most k cancelled calls m mints can be in flight at once iff m <= k + 1: one for each cancelled call and one awaited. |
| `TokenRefresh.EntraTokenProvider.GetToken` | llm_gateway/azure_auth.py:90-123 | Whatever other callers and the clock do between its awaits, the call is a run of the machine: a cached answer had more than the skew left when looked at; otherwise it mints exactly once, and the token it replaces was unusable even then. |
| `Jwks.JwksResolver.SigningKey` | gateway/webhook_auth.py:158-192 | A kid in the cached set is answered without touching the throttle; otherwise a refetch happens iff the last one is old enough. |
| `Jwks.LookAll` | gateway/webhook_auth.py:158-192 | Any sequence of lookups on one resolver forces a refetch just when the specification of the run says. |
| `Jwks.Spaced` | gateway/webhook_auth.py:174-182 | Consecutive forced refreshes are at least min_refresh_seconds apart, for any sequence of kids and threads. |
| `Jwks.OneMoreLookup` | gateway/webhook_auth.py:158-192 | After any run one more lookup forces a refetch iff its kid is not in the cached set and the latest forced refetch, if there was one, is at least min_refresh_seconds old. |
| `Jwks.RateBound` | gateway/webhook_auth.py:174-182 | A window of length L holds at most floor(L / min_refresh) + 1 forced refreshes. |
| `Jwks.KnownNeverRefreshes` | gateway/webhook_auth.py:161-172 | Lookups of kids in the cached set never force a refresh. |
| `Jwks.FirstIsAllowed` | gateway/webhook_auth.py:137-139 | The first unknown kid always refetches and starts the throttle; a known one leaves it as it is. |
| `Branches.ParsePrinted` | orchestrator/parser.py:49-62 | Parsing a printed fix branch returns exactly the bug id it was named after, for every bug id and 8-hex commit prefix. |
| `Branches.PrintParsed` | orchestrator/parser.py:49-62 | An accepted auto/bf/ ref is the fix branch of the id it yields; it reprints to itself iff it has no trailing newline. |
| `Branches.MintedIsBugId` | orchestrator/orchestrator.py:189-193 | Every minted id has the shape the branch patterns look for. |
| `Branches.MintedRoundTrip` | bf_worker/providers/gitlab_provider.py:228-237 | The fix branch of a minted id, for any base commit, leads back to that id. |
| `Branches.MintCollides` | orchestrator/orchestrator.py:180-193 | Two reports get one id iff they fall in the same tenth of a second and draw the same tail. |
| `Webhooks.BugReportsAgree` | gateway/metrics.py:69-86 | For every payload the parser builds a bug report iff the classifier says bug_reported and the payload has a string ref and, if any, a project object and a list of builds starting with an object. |
| `Webhooks.CrashesExactly` | gateway/metrics.py:69-86 | The classifier raises iff the attributes are true, a non-zero number, or a non-empty string or list, and says invalid iff there are none. |
| `Webhooks.BugReportCarries` | orchestrator/parser.py:89-103 | A bug report carries its project's id and address, the id of its first build and its ref. |
| `Webhooks.ValidationsAgree` | gateway/metrics.py:78-83 | Every validation event is counted as validation. |
| `Webhooks.NoSelfTrigger` | orchestrator/parser.py:74-88 | No ref under auto/ ever yields a bug report. |
| `Webhooks.FixBranchComesBack` | orchestrator/parser.py:70-85 | A pipeline of a bug's fix branch comes back as the validation status of that bug. |
| `Webhooks.MessageRouter.Route` | orchestrator/router.py:22-51 | The payload goes to the inbox of its bug iff a registered worker or a daemon has it; no other bug's inbox changes. |
| `Exposition.EscapeIsPerChar` | tools/runrecord_to_metrics.py:171-174 | The three replacements in sequence equal one character-wise map. |
| `Exposition.NoNewline` | tools/runrecord_to_metrics.py:171-174 | The escaped text has no raw newline. |
| `Exposition.ScanEscaped` | tools/runrecord_to_metrics.py:171-174 | Unescaping inverts escaping, and the closing quote is found where it was put, so no quote is left unescaped. |
| `Exposition.SampleRoundTrip` | tools/runrecord_to_metrics.py:185-189 | A rendered sample line reads back as itself, whatever its label values are. |
| `Exposition.RenderCounter` | tools/runrecord_to_metrics.py:177-190 | The loop renders help, type and one line per sample in order. |
| `Exposition.GaugeIs` | tools/runrecord_to_metrics.py:193-198 | The gauge is a help line, a type line that says gauge, and its sample. |
| `Exposition.RenderRoundTrip` | tools/runrecord_to_metrics.py:201-253 | A rendered document of any families reads back as exactly its samples, in order, with the gauge. |
| `RunMetrics.Aggregate` | tools/runrecord_to_metrics.py:88-145 | The loops add up each record's contributions bucket by bucket. |
| `RunMetrics.BucketsAreSums` | tools/runrecord_to_metrics.py:88-145 | A bucket exists iff some record adds to it, and holds the sum of what is added. |
| `RunMetrics.RecordAdds` | tools/runrecord_to_metrics.py:105-135 | What one record adds to each bucket, family by family, unknown names and skipped fields included. |
| `RunMetrics.RecordOpens` | tools/runrecord_to_metrics.py:105-135 | Which buckets a record opens: a numeric duration always its own, zero included; a price, token or call count only when above zero, so that an unknown price never reads as a free run. |
| `RunMetrics.BucketTotals` | tools/runrecord_to_metrics.py:88-145 | Each bucket totals, over the records, what each adds to it. |
| `RunMetrics.OrderIrrelevant` | tools/runrecord_to_metrics.py:88-145 | Aggregation ignores the order of the records. |
| `RunMetrics.RunsTotal` | tools/runrecord_to_metrics.py:105-110 | The run buckets sum to the number of records. |
| `PhaseLog.GroupByBug` | tools/analyze_phase_log.py:108-204 | The two passes build the timelines the specification builds. |
| `PhaseLog.RecordsExactly` | tools/analyze_phase_log.py:108-204 | A bug has a record iff some line of a phase the script knows, llm_call included, names it; a gateway line alone makes none. |
| `PhaseLog.LineSets` | tools/analyze_phase_log.py:140-204 | A line with a moment sets that moment of its bug, or clears it when it carries no time, and the duration only at the end of a fix or of a CI wait; a gateway line speaks for the bug its job and ref were joined to; nothing else changes. |
| `PhaseLog.LineAppends` | tools/analyze_phase_log.py:161-195 | A line about an attempt changes its bug's attempts, an LLM call adds to its bug's calls, nothing else changes, and lines of unknown phases change nothing. |
| `PhaseLog.AttemptPaired` | tools/analyze_phase_log.py:167-218 | A start opens an attempt; an end or venv line goes to the first open attempt with its number, else to the first open one, fills in its own fields there and changes nothing else. |
| `PhaseLog.JoinIgnoresInterleaving` | tools/analyze_phase_log.py:122-149 | The result does not depend on how spawn lines interleave with the others. |
| `PhaseLog.SwapGatewaySpawn` | tools/analyze_phase_log.py:122-149 | The gateway line and the spawn line may come in either order. |
| `PhaseLog.MarkerOpensOrCloses` | tools/analyze_phase_log.py:167-218 | An end marker with a time closes exactly one attempt when one is open; a start opens one; nothing else changes how many are open. |
| `PhaseLog.ClosedStays` | tools/analyze_phase_log.py:186-218 | A closed attempt is never touched again, so each is closed by at most one end marker. |
| `PhaseLog.SubPhasesAddUp` | tools/analyze_phase_log.py:293-312 | No sub-phase is skipped iff spawn, imports, agent ref, ready, probe and fix start are all there in this order, and they then add up to phase 2. |
| `PhaseLog.PercentilesOrdered` | tools/analyze_phase_log.py:250-286 | p50 <= p95 <= max, each an element of the data. |
| `PhaseLog.PercentileIsNearest` | tools/analyze_phase_log.py:250-262 | A percentile is the element of the sorted list nearest to that way along it; of two equally near, the one at the even position. |
| `PhaseLog.TimeWeightedMean` | tools/analyze_phase_log.py:446-458 | The mean is area over covered time, none iff no time is covered, and lies between any bounds the sampled counts keep to. |

## Left out

- The individual rewriting patterns for volatile text in messages are one abstract function on strings; SHA-256 is a function without collisions.
- Keying: a message's content as json.dumps or str() shows it is an abstract function too, kept apart from the canonical text.
- Gateway: health records, debug dumps of a first miss, log texts and response headers, apart from the reply itself; error bodies carry their type but not their message.
- Gateway: requests are served one after another; two requests for one key in flight at once may both be forwarded. A worker whose next request depends on cost or latency headers is outside the run theorems.
- Billing: prices are exact reals; float rounding and the cast of odd usage fields are not modelled.
- ResponseCache: sqlite files, WAL copies and schema checks; a table is a map, a cursor any enumeration of it.
- Consumer: the supervisor's restart pauses and metrics; trimming of the stream by MAXLEN.
- DistrPull: trimming, XAUTOCLAIM's idle time and the daemon set's bookkeeping; which pending entries a claim returns is arbitrary.
- DistrPull: a task counts as submitted once its first XADD has succeeded; before that the orchestrator's own stream holds it.
- Recovery: Redis errors inside the loops, which the step machine covers as crashes; the loops' contracts cover a dispatch that raises.
- Recovery.DaemonMonitor.RecoverInbox: requires that no call can choose the dead daemon and that the pending group exists, because the code relies on both without checking.
- DaemonInbox: Redis errors inside a turn, which the step machine covers as crashes; the owner key and the reaping of workers are in Admission.
- Admission: graceful shutdown with its drain timeout and force kill, and the owner key's expiry.
- Lifecycle: entries are values in a map, so that a stale reference to a replaced entry is not modelled; the monitor's snapshot and the registry are read at one moment per bug. Docker, ECS and Kubernetes process proxies and name helpers are not part of this model.
- ExitProtocol: the completion key's day-long TTL does not run out; a heartbeat write already under way when its loop is cancelled is complete; the restart cap is in Lifecycle only.
- TokenRefresh: credential construction, reset and close.
- Jwks: fetching and parsing of the key set, and all signature and claim checks.
- Branches: digits are ASCII; year 1000 or later.
- Webhooks: decoding of the raw bytes; a payload that is not an object raises, whatever it is.
- RunMetrics: sums are over exact reals; slugify_model and the reading of journal files are not part of this model.
- Exposition: number formatting; a value is the text written for it. Samples may come in any order, sorted order included.
- PhaseLog: parsing of log lines, a fix's outcome and iteration count, CI status text, boolean attempt flags other than the test result, and the report text; percentile positions use exact rationals.
- The MCP server, agents, prompts, evaluation sweeps and fixture tools are I/O around external programs.
