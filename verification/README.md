# Legator in Dafny

Legator is a Kubernetes operator that runs LLM agents on a schedule, behind a guardrail engine that
decides every tool call. This project models the parts of the operator that are hard to get right
and proves what they keep, over every run and every input:

- the **admission protocol** (`admission.dfy`, `ratelimit.dfy`, `tracker.dfy`): one scheduler goroutine
  checks, reserves and records each start in separately locked steps, while run goroutines finish in
  between and stale tracker entries are dropped. It is a transition system with a non-decreasing
  clock; the limiter and the tracker are also given as classes, and `Launcher.TriggerRun` is proved
  to take the protocol's steps whatever the run goroutines do in between;
- the **webhook path** (`webhook.dfy`): debouncer, source registration, the trigger loop;
- the **conversation loop** (`runner.dfy`, `conversation.dfy`): budget, pruning, per-call decisions,
  audit records, final phase. The LLM, the approver, tool outcomes and the clock are arbitrary
  functions, so what is proved of the loop holds for every LLM;
- the **guardrail engine** (`engine.dfy`, `dataprotect.dfy`, `protection.dfy`, `glob.dfy`, `targets.dfy`,
  `dataindex.dfy`, `kubectl.dfy`): `EvaluationOf` says that a decision names the earliest check that
  refuses, for whichever matching Action Sheet entry map iteration finds; `Evaluate` is proved
  against it, and the guarantees are lemmas about it. `reference.dfy` and `rules.dfy` say a second time,
  without the engine's checks, what a call must satisfy, and prove that the engine agrees;
- the **approval protocol** (`approval.dfy`, `endtoend.dfy`): a versioned store, stale reads, write
  conflicts, deciders and the expirer as environment steps, the polling loop itself, and whole runs of
  the agent on top of it; `witnesses.dfy` holds the runs that show what is not promised;
- **retention** (`retention.dfy`), the **agent state store** (`state.dfy`) and the **skill references**
  (`gitref.dfy`, `ociref.dfy`).

Times are integers in nanoseconds. Strings are sequences of characters; `strings.dfy` defines the
string functions of Go's standard library that the code uses.

## Where the code and its comments differ

The model follows the code. Each difference is stated exactly:

- `*` is said to match any sequence of characters, but the engine's matcher misses texts of a pattern
  that contains `*` and ends in a literal: `Glob.EngineMatchExactIff` says it is exact for the other
  patterns and for no others, `Glob.ClosedPatternAccepts` says exactly which texts the rest accept, and
  `Glob.ClosedPatternMisses` gives a missed text for each.
- A call that needs approval is decided before the deny list, the allow list, the cooldown and the
  Action Sheet are looked at: `Engine.ApprovalRequestedIff` and `Runner.RunnableIff` say exactly which
  calls are asked for and which can run, and `Witnesses.DeniedCallRuns` is a run with a denied one.
- The approval modes plan-first and every-action are documented to gate mutations that the autonomy
  covers (api/v1alpha1/legatoragent_types.go:212-217); the code treats every mode but none alike:
  `Engine.ModesAlike`. `Runner.MutationApprovedIff` says when a mutation was approved, and
  `Witnesses.EveryActionRunsUnapproved` is one that was not.
- An approved call records its cooldown under the tool name: `Runner.ApprovedCooldown` says when that
  starts the action's cooldown, `Runner.ConversationLoop` that executions then keep it, and
  `Witnesses.ApprovedThenExecuted` that otherwise they need not.
- Phase Blocked is commented as "all tool calls were blocked"; it means that some call was turned away and
  no record is Executed: `Runner.FinalPhase`, `Runner.BlockedTurnedAwayIff` and the run of
  `Witnesses.DeniedCallRuns`.
- The tracker gives one run per agent only while CleanStale drops no live run:
  `Admission.TrackerGivesOneAtATime` and `Admission.DropsLiveIff` say when, `Admission.LiveRunDropped`
  and `Admission.DropLeadsToTwo` what happens otherwise.
- TotalSize is stale after entries expire: `StateStore.TotalSizeExactIff` says when, and
  `StateStore.StaleSizeReached` gives a run.
- Each debounced key fires once per request only if the trigger loop is quick enough:
  `Webhook.EachAgentOncePerRequest`.
- Declared object storage is indexed, and no check consults it: `Protection.BucketsDecideNothing`.
- Deleting database resources is said to be blocked unconditionally; plural spellings that the kubectl
  tools resolve are missed: `Protection.CnpgDeleteRefusedIff` says which, and
  `Witnesses.ScheduledBackupsDeleted` is such a deletion.
- Skills are cached by the source's key; a source with a ref can share its key with one without:
  `GitRef.ParsedKeysAgree` and `GitRef.CacheKeyCollides`.
- Decisions made through the API or the dashboard are not checked against the request's phase:
  `Approval.CheckedDecisionIsFinal` and `Approval.UncheckedDecisionOverturned`.
- The prune after the last iteration's nudge can separate results from their calls; no request is
  sent after it: `Conversation.PruneAfterNudge`.

## Model

| member | source | states |
|---|---|---|
| `Admission.SlidingWindowBound` | internal/ratelimit/ratelimit.go:90-149 | over every run, any closed one-hour window holds at most maxRunsPerHourPerAgent starts of an agent and maxRunsPerHourCluster plus ten times the burst in all, and no burst up to a scheduled start |
| `Admission.ConcurrencyBound` | internal/ratelimit/ratelimit.go:97-161 | in every interleaving the counters are exactly the runs between RecordStart and RecordComplete, per agent and in all, and stay within the limits, also when the tracker loses entries |
| `Admission.AdmittedIffRoom` | internal/ratelimit/ratelimit.go:90-140 | in every run with a limiter, a check of the limiter admits the agent if and only if its live runs, all live runs and its and all starts of the last hour in the full log are below the four limits; otherwise the scheduler goes back to idle |
| `Admission.RoomMeansStart` | internal/scheduler/scheduler.go:165-298 | from every reachable state, an agent without an entry that has room can be started at once: the five steps are enabled and end with one more live, tracked and logged run of it |
| `Admission.ScheduledStartUsesNoBurst` | internal/ratelimit/ratelimit.go:105-115 | a scheduled start never brings the live runs above maxConcurrentCluster |
| `Admission.RunIsBounded` | internal/scheduler/scheduler.go:218-298 | every reachable state counts its live runs and respects the concurrency limits |
| `Admission.CountersFollow` | internal/ratelimit/ratelimit.go:143-161 | each step of the protocol keeps the counters equal to the multiset of live runs |
| `Admission.BoundsFollow` | internal/scheduler/scheduler.go:218-298 | each step keeps the limits, because only Allow admits and one admission is pending at a time |
| `Admission.RunKeepsRates` | internal/ratelimit/ratelimit.go:90-149 | in every reachable state the log is time-sorted, the history is the log without its old prefix and every start was admitted while neither hour was full |
| `Admission.StepKeepsRates` | internal/ratelimit/ratelimit.go:90-149 | each step keeps that invariant |
| `Admission.CountsAgree` | internal/ratelimit/ratelimit.go:201-210 | the counts taken from the pruned history are the counts over the full log |
| `Admission.AdmissionIsFair` | internal/ratelimit/ratelimit.go:117-137 | what Allow admits had room in both hours of the full log |
| `Admission.PruneKeepsSuffix` | internal/ratelimit/ratelimit.go:189-198 | pruning leaves exactly the last hour of the log's suffix |
| `Admission.AgentWindow` | internal/ratelimit/ratelimit.go:117-124 | a log of fairly admitted starts never has too many of one agent in an hour |
| `Admission.ClusterWindow` | internal/ratelimit/ratelimit.go:126-137 | nor too many in total, with the limit of the last start in the window |
| `Admission.TrackerGivesOneAtATime` | internal/scheduler/concurrency.go:53-118 | while no live run is dropped, the tracker holds exactly the agents with a run and none has two |
| `Admission.StepKeepsOne` | internal/scheduler/concurrency.go:53-118 | each step that drops no live run keeps that |
| `Admission.LiveRunDropped` | internal/scheduler/scheduler.go:144-146 | a run in which CleanStale drops a live run exists: one that takes more than half an hour |
| `Admission.DropsLiveIff` | internal/scheduler/concurrency.go:105-118 | CleanStale drops a live run if and only if one was reserved more than half an hour ago |
| `Admission.QuickRunsGiveOneAtATime` | internal/scheduler/scheduler.go:144-146 | in a run whose entries are never older than half an hour when CleanStale comes, no agent has two runs |
| `Admission.DropLeadsToTwo` | internal/scheduler/scheduler.go:144-146 | any run without a limiter in which CleanStale would drop a live run can go on to two runs of that agent |
| `Admission.ScheduledStaysWithinMax` | internal/scheduler/scheduler.go:165-215 | a scheduled start keeps the tracker within maxConcurrentRuns |
| `Admission.Launcher.Reserve` | internal/scheduler/scheduler.go:218-242 | with or without a limiter, and whatever finishes in between, the check and the reservation take the steps Allow and TryStart, each at its own time |
| `Admission.Launcher.Launch` | internal/scheduler/scheduler.go:244-272 | so do the recorded start and its undoing |
| `Admission.Launcher.TriggerRun` | internal/scheduler/scheduler.go:218-298 | so does all of triggerRun: together with the others' steps it is a sequence of protocol steps, and it spawns exactly when its own were Allow, TryStart, RecordStart and Spawn |
| `Admission.Launcher.Meanwhile` | internal/scheduler/scheduler.go:272-278 | what finishing runs and readers do to the limiter and the tracker between two locked steps takes steps of the protocol and leaves the scheduler where it is |
| `RateLimit.Limiter.Allow` | internal/ratelimit/ratelimit.go:90-140 | answers what Admits says, over the pruned history, and changes nothing but the pruning; `Admission.AdmittedIffRoom` says in terms of live runs and the log what that is |
| `RateLimit.Limiter.RecordStart` | internal/ratelimit/ratelimit.go:143-149 | counts one more run of the agent and appends it to the history |
| `RateLimit.Limiter.RecordComplete` | internal/ratelimit/ratelimit.go:152-161 | uncounts one run, never below zero |
| `RateLimit.EndedFloors` | internal/ratelimit/ratelimit.go:152-161 | each counter falls by one if it is positive and stays at zero otherwise; other agents and the history are untouched |
| `RateLimit.Limiter.PruneHistory` | internal/ratelimit/ratelimit.go:189-198 | drops the old prefix of the history |
| `RateLimit.Limiter.CountAgent` | internal/ratelimit/ratelimit.go:201-210 | the number of the agent's starts in the hour |
| `RateLimit.PruneIsFilter` | internal/ratelimit/ratelimit.go:189-198 | on a time-sorted history, dropping the old prefix keeps exactly the recent records |
| `Tracker.RunTracker.TryStart` | internal/scheduler/concurrency.go:53-66 | reserves exactly when the agent has no entry |
| `Tracker.RunTracker.Complete` | internal/scheduler/concurrency.go:69-73 | removes the agent's entry, whoever made it |
| `Tracker.RunTracker.CleanStale` | internal/scheduler/concurrency.go:105-118 | removes exactly the entries older than the limit and counts them |
| `Webhook.Debouncer.ShouldFire` | internal/scheduler/webhook.go:204-216 | fires exactly when the key's last firing is out of the window, and then remembers it |
| `Webhook.Debouncer.Clean` | internal/scheduler/webhook.go:226-236 | removes exactly the entries older than two windows |
| `Webhook.FiresOncePerWindow` | internal/scheduler/webhook.go:204-236 | over any sequence of events and cleanings, an event fires exactly when none of its key fired within the window before it |
| `Webhook.CleanIsInvisible` | internal/scheduler/webhook.go:204-236 | cleaning at any points changes no answer |
| `Webhook.WebhookHandler.RegisterAgent` | internal/scheduler/webhook.go:64-68 | appends the agent to the source's list |
| `Webhook.WebhookHandler.UnregisterAgent` | internal/scheduler/webhook.go:71-87 | removes the agent from every list, keeps the others in order and leaves no empty list |
| `Webhook.OthersKeep` | internal/scheduler/webhook.go:71-87 | removing an agent leaves no copy of it and every copy of the others |
| `Webhook.WebhookHandler.RegisterWebhookTriggers` | internal/scheduler/scheduler.go:402-418 | afterwards each source lists the agent once per matching trigger, after the others in their old order, and no list is empty |
| `Webhook.RegisteredCounts` | internal/scheduler/scheduler.go:402-418 | afterwards the agent is listed as often as webhook triggers name the source, every other agent as often as before |
| `Webhook.RegisteringAgainChangesNothing` | internal/scheduler/scheduler.go:402-418 | registering the same triggers again changes nothing |
| `Webhook.WebhookHandler.Deliver` | internal/scheduler/webhook.go:131-155 | asks the debouncer for every agent at its own time, while other requests ask it and fill the channel too and the scheduler takes triggers from it; sends exactly the triggers that fire and find room, in order, and loses none that entered |
| `Webhook.EachAgentOncePerRequest` | internal/scheduler/webhook.go:131-155 | however others ask before and meanwhile, one request fires each debounce key at most once, if and only if every agent listed twice is asked for again within the window |
| `Webhook.NoAgentForgotten` | internal/scheduler/webhook.go:131-155 | every agent whose key did not fire within the window before the request has it fired for since, by this request or another |
| `Webhook.FiresForIff` | internal/scheduler/webhook.go:131-155 | an agent fires exactly when its key did not fire within the window before, in this request or another |
| `Webhook.ShortLoopsAreBrisk` | internal/scheduler/webhook.go:131-155 | that holds for every list of agents exactly when the loop lasts less than the window |
| `Webhook.EveryAgentDebounced` | internal/scheduler/webhook.go:131-155 | after its turn every agent's key has fired within the window |
| `Webhook.NothingDropped` | internal/scheduler/webhook.go:138-152 | a channel with room for everything offered drops no trigger |
| `Webhook.WebhookHandler.Offer` | internal/scheduler/webhook.go:131-155 | one pass of the loop |
| `Webhook.DebounceKeyInjective` | internal/scheduler/webhook.go:131-136 | agents whose names hold no slash never share a debounce key across sources |
| `Runner.ConversationLoop` | internal/runner/runner.go:189-510 | for every LLM, approver and clock: the loop ends within the iterations and for the reason given; one record per call, numbered, counted and as the table says; every execution was allowed or approved; two executions of an action ID on a target, also in different iterations, are its cooldown apart, and the cooldown check refuses exactly what an earlier recorded call asks for; every request keeps the protocol and carries the latest exchanges; budgets and total usage; final phase |
| `Runner.Converse` | internal/runner/runner.go:220-482 | the same facts while the loop runs |
| `Runner.Turn` | internal/runner/runner.go:220-482 | one iteration keeps them and tells why it ends the loop |
| `Runner.ProcessCall` | internal/runner/runner.go:296-469 | one call: decision, approval, execution, record, reply and cooldown follow the relation StepFollows and what the world answered; `Runner.StepIsAsTabled`, `Runner.SpacedExecutions` and `Runner.CooledExactly` say what that comes to |
| `Runner.ProcessCalls` | internal/runner/runner.go:296-475 | one record and one result per tool call, in order |
| `Runner.FinalPhase` | internal/runner/runner.go:484-507 | Blocked exactly when a call was turned away and no record is Executed; otherwise Succeeded or Escalated only after a final answer, Failed else |
| `Runner.BlockedTurnedAwayIff` | internal/runner/runner.go:494-507 | in a run that ends Blocked every call was turned away if and only if none was approved or failed |
| `Runner.FollowedStepIsSafe` | internal/runner/runner.go:326-469 | what ran had passed the data layers, and either every layer or an approval |
| `Runner.DataStopNeverRuns` | internal/runner/runner.go:326-470 | a call that a data layer stops is never run and never sent for approval |
| `Runner.StepIsAsTabled` | internal/runner/runner.go:326-469 | every record's status, what ran and what was sent for approval are those of a table over the nine checks, the approver's answer and the tool's outcome |
| `Runner.RunnableIff` | internal/runner/runner.go:326-469 | a call can run under some approver if and only if it passes the data layers and either has the autonomy and passes lists, cooldown and Action Sheet, or lacks the autonomy while approval is on and a manager is there |
| `Runner.Runnable` | internal/runner/runner.go:326-469 | the step that runs each such call |
| `Witnesses.DeniedCallRuns` | internal/engine/engine.go:186-197 | a whole run in which a call that is on the deny list and not in the Action Sheet runs, approved, and which ends Blocked with that Approved record |
| `Runner.CooldownHolds` | internal/engine/engine.go:230-238 | an execution is at least its cooldown after the remembered call under its action ID |
| `Runner.SpacedSnoc` | internal/runner/runner.go:460-463 | one more call keeps every execution its cooldown after all calls recorded under its action ID on that target, despite colliding keys; `Runner.SpacedExecutions` says which calls those are |
| `Runner.SpacedExecutions` | internal/runner/runner.go:460-463 | every execution comes at least its cooldown after each earlier execution with the same action ID and target, and after each approved call whose tool is that ID |
| `Runner.CooledExactly` | internal/engine/engine.go:474-491 | along the calls of a run with a new engine, the cooldown check refuses a call if and only if an earlier call was recorded under its key less than its cooldown ago |
| `Runner.ApprovedCooldown` | internal/runner/runner.go:384-397 | an approved call starts its action's cooldown exactly when the action's ID is the tool name |
| `Witnesses.ApprovedThenExecuted` | internal/runner/runner.go:394 | otherwise the action can run again at once: an approved and an executed call of one action, with its cooldown between them missing |
| `Runner.InvariantSnoc` | internal/runner/runner.go:296-470 | one more call keeps the audit, the cooldown memory and the spacing |
| `Runner.AskIsWithinBudget` | internal/runner/runner.go:223-250 | a request never asks for more tokens than are left, despite the narrowing to int32 |
| `Runner.PromptKeepsProtocol` | internal/runner/runner.go:231-250 | what is sent, with or without the nudge, keeps the protocol and carries the latest exchanges |
| `Runner.NextReady` | internal/runner/runner.go:472-482 | after appending and pruning, exactly the latest four exchanges are kept, paired |
| `Conversation.PruneKeepsPairs` | internal/runner/runner.go:684-696 | pruning a paired list keeps it paired and short: no result loses its call |
| `Conversation.PairedIsProtocol` | internal/runner/runner.go:231-250 | a paired list keeps the provider's protocol, also with the nudge |
| `Conversation.PruneAfterNudge` | internal/runner/runner.go:472-482 | the prune after the nudge keeps the protocol exactly when fewer than three exchanges came before |
| `Conversation.CapWithinRemaining` | internal/runner/runner.go:701-710 | the cap is between 1 and 8192 and never exceeds a positive remainder, for any truncation |
| `Conversation.CapIsAllowance` | internal/runner/runner.go:701-710 | what is asked for is the low 32 bits of the remainder if they lie between 1 and 8191, and 8192 otherwise |
| `Conversation.TotalUsageBound` | internal/runner/runner.go:223-270 | if no reply is longer than allowed, total usage exceeds the budget by at most the last call's input; part of the loop's contract |
| `Engine.ActionEngine.Evaluate` | internal/engine/engine.go:106-250 | the decision names the earliest refusing check, with the status, tier and approval flag that belong to it; `Reference.AllowedIffPermitted`, `Reference.ChecksAre` and `Reference.TierRecorded` say what the checks are |
| `Engine.ActionEngine.DataLayers` | internal/engine/engine.go:124-185 | the four data layers in order |
| `Engine.ActionEngine.PolicyLayers` | internal/engine/engine.go:186-250 | autonomy, deny list, allow list, cooldown and undeclared mutations in order |
| `Engine.ActionEngine.MatchAction` | internal/engine/engine.go:260-268 | finds some matching entry, whichever the map yields first, and none only when none matches; `Reference.MatchIsRight` says what matching is |
| `Engine.ActionEngine.CheckList` | internal/engine/engine.go:424-456 | whether some pattern of the list matches the tool or the tool with its target |
| `Engine.ActionEngine.RecordExecution` | internal/engine/engine.go:253-255 | stamps the agent, action and target's key |
| `Engine.AllowedMeansCleared` | internal/engine/engine.go:106-250 | an allowed call passed every layer: not data-mutation, enough autonomy, not denied, a mutation declared and on any allow list, not cooling down |
| `Engine.ClearedMeansAllowed` | internal/engine/engine.go:106-250 | and a call that passes every layer is allowed |
| `Reference.AllowedIffPermitted` | internal/engine/engine.go:106-250 | a call is allowed if and only if it meets the rules of Permitted, which names none of the engine's checks, and the entry it was matched with covers its tool and its target; without one, no entry covers both |
| `Reference.ChecksAre` | internal/engine/engine.go:106-250 | each of the nine checks, stated independently |
| `Reference.MatchIsRight` | internal/engine/engine.go:260-291 | a matched entry is in the Action Sheet, its tool is the call's or a pattern for it, and its target pattern, if it has one, accepts the target; with no match every entry fails one of the two |
| `Reference.ListedIsNamed` | internal/engine/engine.go:424-456 | a call is on a list if and only if a pattern accepts the tool or, with a target, the tool, a space and the target |
| `Reference.TierIsTierOf` | internal/engine/engine.go:330-372 | the tier is the domain classification, else the Action Sheet entry, else the first keyword list that the tool name touches |
| `Reference.TierRecorded` | internal/engine/engine.go:124-185 | which tier a decision records, by the first data layer that refuses |
| `Engine.ApprovalRequestedIff` | internal/engine/engine.go:186-197 | approval is requested exactly for the calls that pass the data layers and lack the autonomy while approval is on; no later check is asked before |
| `Engine.ModesAlike` | api/v1alpha1/legatoragent_types.go:212-219 | two approval modes that are both on lead to the same decisions |
| `Runner.MutationApprovedIff` | api/v1alpha1/legatoragent_types.go:212-219 | a mutation that ran was approved exactly when the autonomy does not cover its tier, in every mode |
| `Witnesses.EveryActionRunsUnapproved` | api/v1alpha1/legatoragent_types.go:215-216 | in the mode every-action a mutation runs without approval |
| `Engine.AutonomyLadder` | internal/engine/engine.go:375-420 | the comparison of ranks is the table of levels and tiers in which the run theorems are stated; no level unlocks data |
| `DataProtection.CheckDataProtection` | internal/engine/dataprotect.go:92-121 | refuses exactly the protected kinds, the protected patterns and the destructive SQL |
| `DataProtection.Rules.Check` | internal/engine/dataprotect.go:92-121 | the same scan for any tables |
| `Rules.RefusedIff` | internal/engine/dataprotect.go:38-121 | a call is refused if and only if it is a delete of a listed kind, one of the fourteen rules says so in terms of prefixes and contained words, or it spells out one of the SQL statements |
| `Rules.EncodedMeans` | internal/engine/dataprotect.go:60-110 | each pattern of the table accepts exactly what its rule says |
| `Protection.ProtectedKindsNeverDeleted` | internal/engine/dataprotect.go:92-121 | kubectl.delete on anything that resolves to a claim, a volume, a namespace or a CNPG cluster is refused, in any spelling and letter case, under any registry, autonomy and approval mode |
| `Protection.DeleteToolsSpareProtectedKinds` | internal/engine/dataprotect.go:38-121 | no delete tool touches a kind that is named as in the table, in any letter case, when nothing holds a slash |
| `Protection.DeleteRefusedIff` | internal/engine/dataprotect.go:38-121 | the rules refuse a kubectl.delete if and only if the kind read from its target is in the table, the target starts like a data resource, or the call spells out SQL |
| `Protection.DeletedResourceRefusedIff` | internal/engine/dataprotect.go:38-121 | the same by the spelling of the resource alone |
| `Protection.CnpgDeleteRefusedIff` | internal/tools/kubectl.go:503-509 | of the resources that resolve to CNPG, kubectl.delete is refused exactly for the spellings other than three plurals |
| `Witnesses.ScheduledBackupsDeleted` | internal/tools/kubectl.go:508-509 | a kubectl.delete of scheduledbackups that runs without approval |
| `Protection.DataSpellingRefused` | internal/engine/dataprotect.go:60-110 | the patterns cover every target that starts with a data resource's spelling |
| `Protection.DataNamespaceNeverHarmed` | internal/engine/dataprotect.go:148-181 | a destructive call into a namespace with declared data is refused, never sent for approval, whatever the resource and the name hold besides another namespace flag |
| `Protection.DataResourceNeverMutated` | internal/engine/dataprotect.go:148-181 | a mutation that names a declared data resource is refused, whatever its tier |
| `Protection.BucketsDecideNothing` | internal/resolver/environment.go:86-88 | declared buckets influence no decision |
| `Kubectl.DataSpellings` | internal/tools/kubectl.go:455-559 | every spelling that resolves to a data resource starts with one of the protected prefixes |
| `Kubectl.CnpgSpellings` | internal/tools/kubectl.go:503-509 | which spellings resolve to CNPG resources |
| `Targets.TargetRoundTrip` | internal/tools/tools.go:107-118 | the engine's extractors read back the kind, namespace and name that ExtractTarget printed |
| `Targets.NamespaceReadBack` | internal/engine/dataprotect.go:185-195 | the namespace is read back exactly when no word of the resource is taken for another one |
| `Targets.KindReadBack` | internal/engine/dataprotect.go:132-144 | the kind is read back exactly when neither namespace nor name hold a slash |
| `Targets.JoinReadBack` | internal/engine/dataprotect.go:132-226 | the same for any words without slashes |
| `Targets.ExtractNamespace` | internal/engine/dataprotect.go:185-195 | the value of the first namespace flag among the words |
| `Targets.ExtractResourceName` | internal/engine/dataprotect.go:198-226 | what follows the slash, or the first word that is no flag |
| `Targets.FlagValueIs` | internal/engine/dataprotect.go:185-195 | the word after the first namespace flag, and nothing without one |
| `Targets.FirstPlainLaws` | internal/engine/dataprotect.go:198-226 | flags are skipped, a namespace flag with its value, and the first other word is taken |
| `Targets.SlashReadBack` | internal/engine/dataprotect.go:132-226 | kind and name are read back from a target that starts with kind, slash and name |
| `Targets.OtherTargets` | internal/tools/tools.go:107-139 | without a resource the target is the URL, else the server with its tool, else the target argument, else the printed arguments |
| `DataResources.BuildDataIndex` | internal/resolver/environment.go:175-203 | the index holds exactly the declared namespaces, keys and bucket names |
| `DataResources.LookupIsScan` | internal/resolver/environment.go:75-88 | its lookups answer what a scan of the declarations would |
| `DataResources.JoinKeyInjective` | internal/resolver/environment.go:80-83 | the joined key determines its parts when namespace and name hold no slash |
| `DataResources.JoinKeyCollides` | internal/resolver/environment.go:80-83 | and need not otherwise |
| `Glob.MatchGlob` | internal/engine/engine.go:293-326 | the engine's loop computes the greedy match, which `Glob.EngineMatchExactIff` and `Glob.ClosedPatternAccepts` say in terms of the pattern's meaning |
| `Glob.MatchGlobLoose` | internal/assembler/assembler.go:362-377 | the assembler's loop computes the looser one |
| `Glob.EngineMatchIsSound` | internal/engine/engine.go:293-326 | what the engine accepts really decomposes along the pattern |
| `Glob.EngineMatchIsComplete` | internal/engine/engine.go:293-326 | the converse for patterns without a star or ending in one |
| `Glob.EngineMatchExactIff` | internal/engine/engine.go:293-326 | the engine decides the pattern exactly if and only if it is of that form |
| `Glob.ClosedPatternAccepts` | internal/engine/engine.go:293-326 | a pattern that contains a star and ends in a literal accepts a text if and only if the text matches and no shorter prefix of it does |
| `Glob.ClosedPatternMisses` | internal/engine/engine.go:309-323 | a missed text for each other pattern |
| `Glob.GreedyIsComplete` | internal/engine/engine.go:304-317 | taking each part as far left as possible loses no match |
| `Glob.MatchesByParts` | internal/engine/engine.go:293-326 | matching star by star is spreading the literal parts over the text |
| `Glob.AssemblerMatchMeaning` | internal/assembler/assembler.go:362-377 | the assembler answers as if the pattern were surrounded by stars |
| `Glob.EngineImpliesAssembler` | internal/assembler/assembler.go:362-377 | what the engine accepts the assembler accepts |
| `Approval.ReportedDecisionWasMade` | internal/approval/approval.go:121-186 | in every interleaving with stale reads and conflicts, an approval or denial is reported only if a decider wrote exactly it, in a poll that began by the deadline |
| `Approval.FetchReportsWhatItRead` | internal/approval/approval.go:145-182 | in every run a fetch that reads an approval or a denial ends the wait with exactly that phase, decider and reason, one that reads an expiry ends it expired, and one that reads an open request goes on |
| `Approval.ExpiryNeverOverwrites` | internal/approval/approval.go:189-201 | what the expirer replaces was pending |
| `Approval.ExpiryMarksPending` | internal/approval/approval.go:189-201 | an expiry written against the newest version is stored, and replaces a pending one |
| `Approval.DroppedStatusNeverExpires` | internal/approval/approval.go:97-101 | a request whose initial status was dropped is never marked expired |
| `Approval.OneLateTick` | internal/approval/approval.go:136-143 | the wait ends at the first tick after the deadline |
| `Approval.CheckedDecisionIsFinal` | cmd/legator/main.go:1189-1208 | if every decider checks, a request is decided or expired once and a reported decision stays |
| `Approval.UncheckedDecisionOverturned` | internal/api/server.go:447-466 | without the check any run can go on to overturn what was reported |
| `Approval.ApprovalReported` | internal/approval/approval.go:145-163 | approvals are reported at all |
| `Approval.StepKeepsInvariant` | internal/approval/approval.go:121-201 | each step keeps the stored versions honest and only adds versions |
| `Approval.RunKeepsInvariant` | internal/approval/approval.go:121-201 | so does every run |
| `Approval.RequestApproval` | internal/approval/approval.go:121-186 | the loop waits exactly through the polls that find the request undecided in time, and returns what the first other poll finds, which `Approval.OutcomeIsWhatWasRead` ties to the version it read |
| `Approval.Poll` | internal/approval/approval.go:121-186 | one pass: cancelled, late, failed read or the phase that was read, as `Approval.OutcomeIsWhatWasRead` spells out |
| `Approval.OutcomeIsWhatWasRead` | internal/approval/approval.go:136-182 | a poll in time reports the approval or denial it read with its decider and reason, reports expiry for an expired one and waits on an open one or a failed read; a cancelled or late poll reports expiry |
| `Approval.PollTakesSteps` | internal/approval/approval.go:121-186 | a poll with the deciders around it takes steps of the protocol |
| `Approval.RequestIsRun` | internal/approval/approval.go:121-186 | what a whole call returns and leaves in the store is what a run of the protocol comes to |
| `Approval.OutcomeWasDecided` | internal/approval/approval.go:145-181 | a poll that reports a decision read a version a decider wrote |
| `Approval.ExpireRequest` | internal/approval/approval.go:189-201 | a decision that lands between the read and the write survives |
| `EndToEnd.UnauthorisedRunsWereApproved` | internal/runner/runner.go:326-401 | in a whole run, also one in which requests could not be created, every call that ran had passed the data layers, and its tier was unlocked or a decider of its own request had approved it in time |
| `EndToEnd.NoRunDeletesData` | internal/runner/runner.go:296-469 | no run executes, or sends for approval, a kubectl.delete of a claim, a volume, a namespace or a CNPG cluster |
| `Retention.DoScan` | internal/retention/retention.go:136-214 | whatever the map order and the failures, Deleted plus Errors is the smaller of Eligible and the batch, and only eligible runs are deleted |
| `Retention.DeletesOnlyOutdated` | internal/retention/retention.go:168-190 | only terminal runs that finished before the cutoff are deleted |
| `Retention.KeepsMinimum` | internal/retention/retention.go:175-178 | every agent keeps at least the minimum, or all it has |
| `Retention.EachAgentKeepsMinimum` | internal/retention/retention.go:151-178 | so does every pair of namespace and agent name, because namespaces hold no slash |
| `Retention.EligibleIsEligibleSet` | internal/retention/retention.go:166-190 | with distinct creation times the eligible runs do not depend on map order or sorting |
| `Retention.ScanMakesProgress` | internal/retention/retention.go:136-214 | a scan without errors lowers Eligible by exactly a batch |
| `Retention.QuietScansShrink` | internal/retention/retention.go:136-214 | over any number of scans Eligible falls by a batch each |
| `Retention.ScansConverge` | internal/retention/retention.go:136-214 | repeated scans reach a fixed point |
| `Retention.GroupByAgent` | internal/retention/retention.go:151-157 | each agent's runs, in list order |
| `Retention.SortNewestFirst` | internal/retention/retention.go:159-164 | a permutation, newest first |
| `Retention.CollectEligible` | internal/retention/retention.go:166-190 | exactly the eligible runs, each once, in some order |
| `Retention.DeleteAll` | internal/retention/retention.go:199-211 | deletes exactly those whose delete call succeeds and counts the others |
| `Retention.EveryOutcomeIsTerminal` | internal/retention/retention.go:217-227 | every phase the conversation loop can end in is terminal here |
| `Retention.TerminalIsAnOutcome` | internal/retention/retention.go:217-227 | and every terminal phase is one the loop can end in |
| `StateStore.Manager.DoGet` | internal/state/manager.go:51-74 | answers the unexpired value and removes an expired entry |
| `StateStore.Manager.DoSet` | internal/state/manager.go:77-127 | succeeds exactly within the quotas and leaves the state unchanged otherwise |
| `StateStore.Manager.DoDelete` | internal/state/manager.go:130-151 | removes the key and recomputes the size |
| `StateStore.SetAcceptedIff` | internal/state/manager.go:77-127 | a set goes through if and only if nothing fails, the value is at most 4096 bytes, the result has at most 100 keys and at most 65536 bytes, or the configured limits |
| `StateStore.DeleteAcceptedIff` | internal/state/manager.go:130-151 | a delete goes through if and only if nothing fails, or only a write that is not needed |
| `StateStore.Manager.DoListKeys` | internal/state/manager.go:154-176 | returns and keeps exactly the unexpired entries |
| `StateStore.TotalSize` | internal/state/manager.go:113-117 | the summing loop, in any map order, computes the size |
| `StateStore.SizeCounts` | internal/state/manager.go:113-117 | the size counts the bytes of every key and value |
| `StateStore.RunKeepsQuota` | internal/state/manager.go:51-176 | over any operations and failures: key and value quotas, and actual size at most TotalSize at most 65536 |
| `StateStore.StepKeepsQuota` | internal/state/manager.go:51-176 | each operation keeps that |
| `StateStore.ReadsAnswerFromLog` | internal/state/manager.go:51-176 | reads answer what a log of the last successful write per key with its TTL would |
| `StateStore.ReadsLastWrite` | internal/state/manager.go:51-176 | in every run a read gives the value of the last write of its key that went through, unless that was a delete or its time-to-live, counted from the whole second of the write, is over |
| `StateStore.NothingToRead` | internal/state/manager.go:51-74 | a key that no write reached reads as absent |
| `StateStore.ListingIsReads` | internal/state/manager.go:154-176 | a listing holds exactly what reads of each key would give |
| `StateStore.StoreRefinesLog` | internal/state/manager.go:51-176 | the stored entries are that log without some expired ones |
| `StateStore.TotalSizeExactIff` | internal/state/manager.go:51-176 | over every sequence of operations TotalSize is the actual size plus what Get and ListKeys have expired since the last write: exact if and only if they dropped no non-empty entry since |
| `StateStore.StaleSizeReached` | internal/state/manager.go:62-71 | a write and a read after its time-to-live leave an empty store with a recorded size of two |
| `GitRef.GitRoundTrip` | internal/skill/git.go:43-71 | parsing the printed source gives it back exactly when it is well formed |
| `GitRef.ParsedIff` | internal/skill/git.go:43-71 | a source parses if and only if something follows the git scheme |
| `GitRef.CacheKeyInjective` | internal/skill/git.go:194-203 | distinct well-formed sources have distinct cache keys |
| `GitRef.ParsedKeysAgree` | internal/skill/git.go:74-82 | parsed sources with one key are the same exactly when both or neither have a ref |
| `GitRef.ParsedWellFormedIff` | internal/skill/git.go:43-71 | a parsed source is well formed exactly when it has a ref or no `@` that could start one |
| `GitRef.TrailingAtCollides` | internal/skill/git.go:51-55 | every source with a ref and no path shares its key with the one that has another `@` at its end |
| `GitRef.CacheKeyCollides` | internal/skill/git.go:194-203 | git://h@r and git://h@r@ are different sources with one key |
| `GitRef.RefSurvives` | internal/skill/git.go:51-55 | the ref is cut off again exactly when neither it nor, without one, the rest holds an `@` |
| `GitRef.PathSurvives` | internal/skill/git.go:57-61 | the path is cut off again exactly under the condition on `#` |
| `OciRef.OciRoundTrip` | internal/skills/oci.go:215-262 | parsing the printed reference gives it back exactly when it is well formed: one of tag and sha256 digest, no stray marker; the registry may hold a port |
| `OciRef.ParsedIff` | internal/skills/oci.go:215-234 | a reference parses if and only if a slash precedes any digest |
| `OciRef.DigestSurvives` | internal/skills/oci.go:223-227 | the digest is cut off again exactly when it is a sha256 digest and no marker precedes it |
| `OciRef.TagSurvives` | internal/skills/oci.go:236-241 | the tag is cut off again exactly when it holds neither slash nor colon |
| `OciRef.ParseShape` | internal/skills/oci.go:215-251 | the parts of a parsed reference |

## Left out

- The Kubernetes client, HTTP, SSH, SQL, Vault, MCP, OCI registries and LLM providers: their results are arbitrary parameters.
- The command line, the dashboard, notifications, metrics and telemetry: presentation; only the approval deciders are kept, as steps of the protocol.
- Cron schedules, timezones and jitter: whether an agent is due is the environment's choice (`TakeDue`).
- Manual runs started by annotation: they bypass the limiter and the tracker, so the admission bounds do not cover them.
- Protection classes, per-tool classification tables and duration parsing: arbitrary functions in the engine's configuration.
- The pre-conditions step that the engine's documentation lists: Evaluate does not perform it.
- Texts for people: block reasons, pre-flight results, reports, findings, audit result texts and their redaction.
- Unicode case folding: lower-casing covers the ASCII letters.
- int32 record counters: unbounded here; the token arithmetic models int64 and int32 exactly.
- Aliasing through getOrCreate and resource versions in the state store: an operation either fails to fetch, fails to write or does both; concurrent writers of one agent's state are not modelled.
- RBAC, tenants, inventory, the notification limiter, agent-to-agent messages and the event bus: easier variants of the members above.
- Runner.ConversationLoop: needs the token budget to be an int64, which is its type in the source.
- Retention.DoScan: the batch limit is not negative; a negative limit makes the source slice out of range. The listed runs are distinct, as objects of a cluster are.
- Retention.SortNewestFirst: works on a sequence, not in place.
- Webhook.WebhookHandler.Deliver: the request's parsing and payload are not modelled.
- RateLimit.Limiter.Allow: returns the verdict without the reason text.
- The kubectl tools' resource table, beyond what resolves to data or to CNPG: the other names decide nothing here.
