# Verified model of the n8n server's stateful core

This project models the parts of the n8n server (`packages/cli/src`) that keep state over time, and proves
what that state can be relied on for. Each part has a specification on plain values, classes whose methods
do what the source does step by step and are proved against that specification, and theorems about the
specification: for every input, every step or every run. The files named `Rows`, `Lines`, `Effects` and `Removal` say
what the specification answers in other terms than its own: rows of a table by their index, lines of parents, paths
as they are spelled, literal names and delays, events and the state before them.

| part | files |
|---|---|
| repair of credential references with two caches | `CredentialRepair.dfy`, `CredentialRepairTheorems.dfy`, `CredentialRepairRows.dfy` |
| inheritance of credential types over growing arrays | `CredentialHierarchy.dfy` |
| preset credential values, resolved while the table is rewritten | `CredentialOverwrites.dfy`, `CredentialOverwritesTheorems.dfy`, `CredentialOverwritesLines.dfy` |
| registering webhooks | `WebhookRegistration.dfy`, `WebhookRegistrationRows.dfy` |
| activation, retry queue, timers, activation errors | `Activation.dfy`, `ActivationTheorems.dfy`, `ActivationOutcomes.dfy`, `ActivationErrors.dfy`, `ActivationStartup.dfy`, `ActivationEffects.dfy`, `ActivationRemoval.dfy`, `ActivationModes.dfy`, `ActiveWorkflowManager.dfy` |
| running executions, their promises and the concurrency queue | `Executions.dfy`, `ExecutionsTheorems.dfy`, `ExecutionsEffects.dfy`, `ActiveExecutions.dfy` |
| waiting executions and their timers | `WaitTracking.dfy`, `WaitTrackingTheorems.dfy`, `WaitTrackingRuns.dfy`, `WaitTrackingEffects.dfy` |
| tables of nodes and credentials rebuilt from the loaders | `NodeLoading.dfy`, `NodeLoadingTheorems.dfy`, `NodeLoadingSteps.dfy`, `NodeLoadingExample.dfy`, `NodeLoadingEffects.dfy`, `LoadNodesAndCredentials.dfy` |

`dafny verify dfyconfig.toml` checks everything.

## How the source is represented

- **The outside world.** The database, external services and the clock answer through parameters: `Answers`
  say how everything answers one call of `add` or `remove`, `steps` how each webhook is answered, an event
  carries what a poll reports. The theorems hold for all answers.
- **Concurrency.** A method that awaits is cut into the steps between which others can act: a call of the
  manager's `add` goes through preparation, clearing the queue entry, deregistering the error, counting the
  triggers, saving, registering a failure, and the return to its caller; `remove` through four such steps;
  `add` of an execution has a part up to the throttle and a part after it. A run is any sequence of enabled
  events, with any number of calls under way.
- **History.** Some fields record what the source does not keep: the failures of a queue entry (`history`),
  whether a call has done its bookkeeping (`counted`), the tickets that hold a slot (`slots`), what was released and
  settled, when a wait began, the last poll, the starts. They are ghost in the classes, or parts of a row or a call,
  and no branch reads them.
- **Sharing.** `CredentialTypes.lists` is the content of the one `extends` array of each type; the class of a
  `shared` type has that very array. In the loader model, arrays have identities, so that a push into an array
  that belongs to a loader is seen by the loader.
- **Acyclic inheritance** is witnessed by a rank that falls from a type to its parents.

## What holds, and where the code falls short

- Credential repair equals the lookup without caches exactly when no id missing from the table comes with
  two names (`RepairIsLookupIff`). Repairing twice changes nothing more, without any condition. What every reference
  becomes is settled by the rows and the references before it (`RepairAnswers`, `NodeAnswers`).
- Preset values: with any key order and any acyclic hierarchy the answer has exactly the fields some ancestor
  gives. Where types have one parent, the nearest ancestor wins for all tables if and only if no class array has
  grown by a recognised ancestor (`NearestWinsIff`). It does grow for loaders that are not lazy: there `known` and
  the class share one `extends` array (packages/core/src/DirectoryLoader.ts:190-195), so after `getParentTypes` a
  second `setData` lets a grandparent win over a parent (`AskingGrowsSharedArray`,
  `GrownArrayBreaksNearestWins`). An *empty* entry changes no answer if and only if no type names two bases
  (`EmptyEntriesHarmlessIff`).
- `addWebhooks` stores by upsert, so a webhook of another workflow with the same method and trimmed path is
  replaced (`OthersUntouchedIff`), and cleared with the others when the registration fails (`StolenAndCleared`).
  A failure after the loop (cache, static data) is not cleared up (`LateFailureLeavesRows`).
- Activation retries: timers and queue stay in step exactly unless a retry ends in failure while a newer timer
  of its workflow is live (`NextKeepsInvIff`), whether the retry failed before it cleared the queue or after; then
  a timer is left that emptying the queue does not clear (`OverlapLeaksTimer`, from the beginning in
  `LeakReached`). It never happens where no workflow is queued while a retry of it is under way, whatever else is
  (`UnqueuedIsUndisturbed`), and so with retries that run to completion (`AtomicIsUndisturbed`). But a retry whose
  failure comes after it cleared the queue ends in an unhandled error (`UninterruptedCrashIff`); in general that
  takes something that took the entry out meanwhile (`CrashNeedsDequeue`).
- That a queued workflow always has an activation error is false of the code, even where calls run to completion
  and nobody clears errors: when everything works at start-up but saving the static data, the workflow is queued
  and nothing says why (`StartupForgets`). Over every run in which calls for one workflow do not mix it holds if and
  only if no start-up call returns whose only failure was that one, not for authorization (`AlwaysHasErrorIff`); so
  it holds wherever saving works (`SeparateRunKeepsErrors`, `AtomicRunKeepsErrors`). Where calls do mix, a trigger
  error inside an `add` has the same effect (`RequeuedLosesError`); `NextKeepsErrorsIff` says of any single event
  whether it does. A workflow that is being removed has lost its error a step before its entry.
- A `remove` takes webhooks, error, queue entry and triggers, if they can be cleared and closed (`RemovalRemoves`),
  and what is gone stays gone until the workflow is added again (`GoneStaysGone`); but when deregistering the error
  fails it ends half-way, with the webhooks gone and the triggers still running (`RemovalStopsHalfway`).
- Executions: all bookkeeping is kept exactly unless an id is inserted while it is active. Taking an execution
  out of the concurrency queue lets the next one pass without a free slot, over the limit (`WithinLimitIff`).
  On shutdown the service is disabled first, so that emptying its queue afterwards does nothing
  (packages/cli/src/active-executions.ts:226-235). Cancelling ends at the first execution that no run is attached to
  yet (`ShutdownEndsWithoutRun`).
- Waiting executions: each period starts at most once and never early, exactly unless a poll reports a started
  row that has not been cleared, or a row is cleared under a live timer. Both really lead to a second or an
  early start (`SlowResumeStartsTwice`, `StaleTimerStartsEarly`). With polls in time, and none of those races, no
  wait longer than 60 s is missed, if its execution has no entry left over from before a stop and is not stopped by
  hand (`WaitsAreServed`); of shorter waits nothing is promised. An execution whose timer was cleared by
  `stopTracking` is never started again by later tracking (`StaleNeverStarts`).
- After `stopTracking` no timer is live until the next `startTracking` if and only if the stop leaves no interval
  behind (`QuietAfterStopIff`). Tracking started twice and stopped once leaves one, and executions go on being
  armed (`StartedTwice`); where starts and stops alternate it does not happen (`QuietBetweenTracking`).
- Post-processing the loaders again gives the same known tables and adds nothing to their options
  (`ReprocessedIsSame`), but an options list shared between a node that takes custom API calls and a node
  that does not makes the second node's tool differ the second time (`ToolSameIff`; two such nodes are in
  `SharedOptionsChangeTool`), and no more after that (`ToolsSettle`). An empty options list of a node that takes
  custom API calls ends post-processing with an error.

## Model

| member | source | states |
|---|---|---|
| CredentialRepair.CredentialsRepository.FindByName | packages/cli/src/workflow-helpers.ts:146-149 | a by-name read returns the rows of that type and name and is counted as one query |
| CredentialRepair.CredentialsRepository.FindOne | packages/cli/src/workflow-helpers.ts:182-185 | a by-id read returns the row of that type and id, if any, and is counted as one query |
| CredentialRepair.ReplaceReference | packages/cli/src/workflow-helpers.ts:137-220 | one reference, answered from either cache or the database, becomes what the occurrences before it determine; both caches keep their meaning and exactly the uncached queries are issued |
| CredentialRepair.ReplaceInNode | packages/cli/src/workflow-helpers.ts:131-221 | the references of one enabled node are replaced in place, in order, and nothing else of it changes |
| CredentialRepair.ReplaceInvalidCredentials | packages/cli/src/workflow-helpers.ts:120-224 | the nested loop with its two caches computes the cache-free repair of the whole workflow; disabled nodes and nodes without credentials stay as they are; the queries are those of the cache-free account |
| CredentialRepair.NamedRowHasItsId | packages/cli/src/workflow-helpers.ts:200-209 | with unique ids, filing a row found by name under its own id agrees with looking that id up |
| CredentialRepairTheorems.RepairedIsLookup | packages/cli/src/workflow-helpers.ts:174-219 | an occurrence gets another answer than the plain lookup exactly when the first unresolvable reference to its id has another name |
| CredentialRepairTheorems.RepairIsLookupIff | packages/cli/src/workflow-helpers.ts:120-224 | over a whole workflow the repair equals by-id, else unique-name, else unchanged, up to writing a bare name as a record with null id, if and only if no missing id follows under another name |
| CredentialRepairTheorems.RenamedReference | packages/cli/src/workflow-helpers.ts:212-219 | a workflow with one missing id under two names, whose second reference becomes the first |
| CredentialRepairTheorems.RepairInventsNothing | packages/cli/src/workflow-helpers.ts:131-220 | every result keeps its type and is a row of that type or an unresolved reference to the same credential met so far |
| CredentialRepairTheorems.RepairAllTwice | packages/cli/src/workflow-helpers.ts:137-220 | repairing a repaired list of references changes nothing, for unique ids |
| CredentialRepairTheorems.RepairTwice | packages/cli/src/workflow-helpers.ts:131-221 | running the repair on its own output with the same table changes nothing, for every workflow, whatever names missing ids come with |
| CredentialRepairTheorems.QueriesAreCached | packages/cli/src/workflow-helpers.ts:124-201 | the old-style branch asks at most once per type and name, and an id that exists is asked for at most once per type |
| CredentialRepairRows.NameCounts | packages/cli/src/workflow-helpers.ts:146-157 | a name leads to a row exactly when one row of the type, and no second one, has it; with none or several it leads nowhere |
| CredentialRepairRows.RepairAnswers | packages/cli/src/workflow-helpers.ts:137-220 | each reference of the walk, by rows and earlier references: without an id it becomes the one row of its name, or keeps its name and gets no id; with an id it becomes the row of that id; of an id that no row has, the first reference that its name does not resolve stays and later ones become it |
| CredentialRepairRows.AnswersOnce | packages/cli/src/workflow-helpers.ts:137-220 | rows and earlier references leave one answer only |
| CredentialRepairRows.NodeAnswers | packages/cli/src/workflow-helpers.ts:131-221 | the same for every reference of every enabled node; a disabled node, and one without credentials, stays as it is |
| CredentialRepairRows.WalkedInOrder | packages/cli/src/workflow-helpers.ts:131-137 | the walk takes the references of the enabled nodes, in order, and no others |
| CredentialRepairRows.AskedIff | packages/cli/src/workflow-helpers.ts:146-185 | the table is asked for a name in the old style exactly when a reference without an id has it, for a missing id exactly when a reference has it, and for no other id |
| CredentialHierarchy.CredentialTypes.GetByName | packages/cli/src/credential-types.ts:21-57 | lazy loading changes neither what is recognised nor any declared parents, and an unknown type yields nothing |
| CredentialHierarchy.CredentialTypes.GetParentTypes | packages/cli/src/credential-types.ts:32-40 | although the walked array grows in place, the returned list without later duplicates is that of the plain recursion over the declared lists, and every array touched still has that property |
| CredentialHierarchy.SettledAfterCall | packages/cli/src/credential-types.ts:32-40 | a call on any type leaves the arrays of all types fit for any later call |
| CredentialHierarchy.GrownStep | packages/cli/src/credential-types.ts:35-37 | pushing the ancestors of the next parent onto the array keeps it a prefix-correct account of the ancestors |
| CredentialHierarchy.AncestorsTransitive | packages/cli/src/credential-types.ts:32-40 | an ancestor of an ancestor is an ancestor |
| CredentialHierarchy.DeduplicatedConcat | packages/cli/src/credential-types.ts:36-36 | dropping later duplicates is unaffected by replacing either part of a list with one of the same distinct elements in the same order |
| CredentialOverwritesLines.AncestorsIff | packages/cli/src/credential-types.ts:32-40 | the ancestors of a type are exactly the ends of the lines of declared parents that leave it |
| CredentialOverwritesLines.FirstOnesInOrder | packages/cli/src/credential-types.ts:32-40 | dropping later duplicates keeps the elements in the order in which they first come up |
| CredentialOverwritesLines.ParentsComeFirst | packages/cli/src/credential-types.ts:33-37 | the parents come before all other ancestors |
| CredentialOverwritesLines.AncestorsInOrder | packages/cli/src/credential-types.ts:35-37 | the ancestors of a parent come before those that only later parents have |
| CredentialOverwritesLines.ClassBases | packages/cli/src/credential-types.ts:43-57 | a loaded class gives the bases before the one that would be loaded, and a class that shares its array gives what that has grown to |
| CredentialOverwrites.CredentialsOverwrites.GetOverwrites | packages/cli/src/credentials-overwrites.ts:62-92 | the memoised recursion over the declared bases returns the fields and the memo of its value-level account, loading classes on the way without changing any declaration |
| CredentialOverwrites.CredentialsOverwrites.SetData | packages/cli/src/credentials-overwrites.ts:28-41 | the table and memo left by resolving key after key while the table is overwritten, in any key order |
| CredentialOverwrites.CredentialsOverwrites.Get | packages/cli/src/credentials-overwrites.ts:94-101 | the answer is the merge along the declared ancestors however far the arrays have grown, so a repeated call gives the same answer |
| CredentialOverwrites.CredentialsOverwrites.MergeChain | packages/cli/src/credentials-overwrites.ts:96-100 | merging the reversed chain of types lets earlier types win |
| CredentialOverwrites.CredentialsOverwrites.ApplyOverwrite | packages/cli/src/credentials-overwrites.ts:43-60 | the unset fields of the data are filled from the effective values of the type and no others |
| CredentialOverwrites.Fill | packages/cli/src/credentials-overwrites.ts:50-59 | filling key by key, in any order, gives the same result |
| CredentialOverwrites.LayeredDeduplicated | packages/cli/src/credentials-overwrites.ts:94-101 | repeated ancestors in the list do not change the merge |
| CredentialOverwritesTheorems.RootedRanked | packages/cli/src/credentials-overwrites.ts:73-83 | however far the arrays have grown, resolving the bases of classes ends |
| CredentialOverwritesTheorems.SettleBetween | packages/cli/src/credentials-overwrites.ts:28-41 | at every point of `setData` each stored entry has all raw fields of its type and only values the type inherits |
| CredentialOverwritesTheorems.ResolveInherits | packages/cli/src/credentials-overwrites.ts:62-92 | whatever the memo hands back, merged or not, a resolution contains the raw entry and only inherited values |
| CredentialOverwritesTheorems.EffectiveIsInherited | packages/cli/src/credentials-overwrites.ts:28-101 | for any acyclic hierarchy, table and key order: the answer has exactly the fields that the type or an ancestor gives, each with an inherited value, and the own value always wins |
| CredentialOverwritesTheorems.EffectiveIsMerged | packages/cli/src/credentials-overwrites.ts:28-101 | where no type has two parents the answer is the nearest-ancestor-wins merge of the raw table |
| CredentialOverwritesTheorems.InheritsIsMerged | packages/cli/src/credentials-overwrites.ts:80-91 | with single parents the inherited value of a field is unique and is the one of the nearest-wins merge |
| CredentialOverwritesTheorems.NearestWinsIff | packages/cli/src/credentials-overwrites.ts:28-101 | with single parents, the nearest ancestor wins for all tables, key orders and types if and only if no class array has grown by a recognised type beyond the parent |
| CredentialOverwritesTheorems.GrownArrayBreaksNearestWins | packages/cli/src/credentials-overwrites.ts:73-91 | for any class array grown by a recognised ancestor there is a table and key order in which another ancestor's value wins over the nearest one |
| CredentialOverwritesTheorems.AskingGrowsSharedArray | packages/cli/src/credential-types.ts:32-40 | after the ancestors of a type with a recognised grandparent have been asked for, a class that shares its array is such a class |
| CredentialOverwritesTheorems.ClassesRooted | packages/cli/src/credential-types.ts:32-40 | whatever has been asked, every class array starts with the declared parents and goes on with ancestors of them |
| CredentialOverwritesTheorems.EmptyEntriesHarmlessIff | packages/cli/src/credentials-overwrites.ts:28-101 | an empty entry changes no answer, for all tables, key orders and types, if and only if no type names two bases |
| CredentialOverwritesTheorems.EmptyEntryChangesAnswer | packages/cli/src/credentials-overwrites.ts:80-100 | for any type with two bases there is a table in which its first base wins without an entry and its last one with an empty entry |
| CredentialOverwritesTheorems.EmptyEntryKeepsAnswer | packages/cli/src/credentials-overwrites.ts:28-101 | with single parents an empty entry changes no answer, also where bases are unknown or repeated |
| CredentialOverwritesTheorems.FilledTwice | packages/cli/src/credentials-overwrites.ts:43-60 | filling is idempotent, keeps every set field, and changes only unset ones, to overwrite values |
| CredentialOverwritesTheorems.LastBaseWins | packages/cli/src/credentials-overwrites.ts:80-83 | of several bases that give a field, the last recognised one gives it to the type |
| CredentialOverwritesLines.AnswerIsOnLine | packages/cli/src/credentials-overwrites.ts:28-101 | after `setData` a type has a field exactly if the given table has it at the end of a line of parents; its value is the first one on such a line, and the own value always wins |
| CredentialOverwritesLines.MemoLeavesRaw | packages/cli/src/credentials-overwrites.ts:63-66 | a type that resolving an earlier key comes by keeps its entry as given, without what it inherits |
| CredentialOverwritesLines.FilledWhereEmpty | packages/cli/src/credentials-overwrites.ts:50-57 | a value is filled in where the data has none, `null`, `undefined` or the empty text, and nowhere else |
| WebhookRegistration.WebhookService.StoreWebhook | packages/cli/src/webhooks/webhook.service.ts:93-97 | a row with the same method and path is replaced, whoever owns it |
| WebhookRegistration.WebhookService.CreateWebhook | packages/cli/src/active-workflow-manager.ts:159-176 | one slash is trimmed at each end; a dynamic path of a node with a webhook id carries that id and its number of segments |
| WebhookRegistration.WebhookService.DeleteWorkflowWebhooks | packages/cli/src/webhooks/webhook.service.ts:103-113 | exactly the rows of the workflow are deleted |
| WebhookRegistration.WebhookService.Abort | packages/cli/src/active-workflow-manager.ts:197-217 | rows are cleared if clearing works, and the message is that of a taken path, else the detail, else the original |
| WebhookRegistration.WebhookService.AddWebhooks | packages/cli/src/active-workflow-manager.ts:140-223 | for every pattern of failures the loop leaves the table and outcome determined by the first failure that is not forgiven |
| WebhookRegistration.FirstFatal | packages/cli/src/active-workflow-manager.ts:187-195 | registration ends at the first failure, except that on start-up failed queries are passed over |
| WebhookRegistration.WrittenIsLast | packages/cli/src/active-workflow-manager.ts:153-186 | of several webhooks with one method and path the last stored one stays |
| WebhookRegistration.ReturnStoresAll | packages/cli/src/active-workflow-manager.ts:146-223 | a normal return outside start-up leaves every listed webhook stored under its trimmed path and owned by the workflow |
| WebhookRegistration.ThrowLeavesNothing | packages/cli/src/active-workflow-manager.ts:187-222 | after a throw the workflow owns no row exactly if the failure was in the loop and clearing worked, or nothing was stored and it owned none before |
| WebhookRegistration.OthersUntouchedIff | packages/cli/src/webhooks/webhook.service.ts:93-97 | another workflow keeps its rows if and only if none has a method and path that was written |
| WebhookRegistration.LateFailureLeavesRows | packages/cli/src/active-workflow-manager.ts:220-222 | a webhook that is stored before filling the cache or saving fails stays, and the registration throws |
| WebhookRegistration.StolenAndCleared | packages/cli/src/active-workflow-manager.ts:187-196 | a workflow that lists a webhook of another one takes its row; if registering then fails, clearing leaves the row to neither |
| WebhookRegistrationRows.TrimIff | packages/cli/src/active-workflow-manager.ts:166-171 | a path is stored as the one text that it spells with a slash more in front, at the end, at both ends or at none |
| WebhookRegistrationRows.DynamicIff | packages/cli/src/active-workflow-manager.ts:173-173 | a path is dynamic exactly when a segment of it begins with a colon |
| WebhookRegistrationRows.SegmentsAreParts | packages/cli/src/active-workflow-manager.ts:175-175 | a path has as many segments as slashes join |
| WebhookRegistrationRows.RowOfIs | packages/cli/src/active-workflow-manager.ts:159-176 | the row has workflow and node, and for a dynamic path of a node with a webhook id that id and the number of segments; otherwise neither |
| WebhookRegistrationRows.ResultIff | packages/cli/src/active-workflow-manager.ts:187-222 | registering returns exactly when no webhook fails but in ways that start-up forgives and nothing fails afterwards; otherwise it throws for the first failure: the taken path with the name of the node, the detail, or the message |
| WebhookRegistrationRows.RegistrationLeaves | packages/cli/src/active-workflow-manager.ts:153-217 | key by key: the last webhook stored under it, or what was there, up to and with the first failure; cleared up after, no row of the workflow is left and all others are |
| WebhookRegistrationRows.ClearedLoses | packages/cli/src/webhooks/webhook.service.ts:103-113 | clearing takes the rows of the workflow and no others |
| ActiveWorkflowManager.Manager.RemoveQueuedWorkflowActivation | packages/cli/src/active-workflow-manager.ts:686-691 | the entry goes together with its timer, and nothing else changes |
| ActiveWorkflowManager.Manager.AddQueuedWorkflowActivation | packages/cli/src/active-workflow-manager.ts:627-681 | an earlier entry and its timer are replaced by one entry with a new timer after the initial delay |
| ActiveWorkflowManager.Manager.RemoveAllQueuedWorkflowActivations | packages/cli/src/active-workflow-manager.ts:696-700 | the queue is empty and the timers of its entries are cleared, in whatever order they are visited |
| ActiveWorkflowManager.Manager.Prepare | packages/cli/src/active-workflow-manager.ts:536-585 | the part of `add` that can fail before the queue is cleared: refusals, webhooks by mode, triggers |
| ActiveWorkflowManager.Manager.AdvanceAdd | packages/cli/src/active-workflow-manager.ts:513-606 | one step of `add`, from one awaited answer to the next: preparing, clearing the queue, deregistering, counting, saving, registering a failure, returning |
| ActiveWorkflowManager.Manager.AdvanceRemove | packages/cli/src/active-workflow-manager.ts:709-743 | one step of `remove`: webhooks, then the error, whose deregistering may fail and end it, then the queue entry, then the triggers |
| ActiveWorkflowManager.Manager.Return | packages/cli/src/active-workflow-manager.ts:639-669 | the caller learns of the outcome: a failed retry is put back if its entry is there, start-up queues what failed but for authorization |
| ActiveWorkflowManager.Manager.Reschedule | packages/cli/src/active-workflow-manager.ts:643-659 | the delay doubles up to a day and the entry records the new timer; the one it recorded is not cleared |
| ActiveWorkflowManager.Manager.Add | packages/cli/src/active-workflow-manager.ts:513-606 | the steps of an `add` that nothing interrupts, one after the other, leave what the uninterrupted account says |
| ActiveWorkflowManager.Manager.FireTimer | packages/cli/src/active-workflow-manager.ts:634-640 | a due timer is spent and its retry begins |
| ActiveWorkflowManager.Manager.AddActiveWorkflows | packages/cli/src/active-workflow-manager.ts:422-473 | every listed workflow is tried; failures other than authorization errors are queued in mode `init` |
| ActiveWorkflowManager.Manager.EmitError | packages/cli/src/active-workflow-manager.ts:367-391 | a trigger error takes the workflow out of memory, registers the error and queues it |
| ActivationTheorems.DelayIsCappedPower | packages/cli/src/active-workflow-manager.ts:642-659 | after k failures the delay is min(1000 * 2^k, 86400000) ms, and it is the maximum exactly from the 17th failure on |
| ActivationTheorems.TotalDelayClosed | packages/cli/src/constants.ts:68-69 | n retries take 1000 * (2^n - 1) ms of delay up to n = 17, and one more day each after that |
| ActivationTheorems.OneTimerPerWorkflow | packages/cli/src/active-workflow-manager.ts:627-700 | no workflow has two live timers, one without a queue entry has none, and an empty queue means no timers |
| ActivationTheorems.StepQueueing | packages/cli/src/active-workflow-manager.ts:513-743 | of all steps of `add` and `remove` only clearing, queueing by start-up and putting back a retry touch queue and timers |
| ActivationTheorems.StepKeepsInvIff | packages/cli/src/active-workflow-manager.ts:588-661 | a step of a call keeps timers and queue in step if and only if it is not a failed retry that returns while its entry has a live timer |
| ActivationTheorems.NextKeepsInvIff | packages/cli/src/active-workflow-manager.ts:513-743 | for every event, also between the steps of calls: one live timer per entry, recorded in it and paced by its failures, or a retry under way that has not cleared the queue, is kept if and only if the event is not such a return |
| ActivationTheorems.RunKeepsInv | packages/cli/src/active-workflow-manager.ts:627-700 | over every run without such a return timers and queue stay in step |
| ActivationTheorems.UnqueuedIsUndisturbed | packages/cli/src/active-workflow-manager.ts:627-681 | over every run in which no workflow is queued while a retry of it is under way, whatever other calls and events there are, this never happens, so timers and queue stay in step |
| ActivationTheorems.AtomicIsUndisturbed | packages/cli/src/active-workflow-manager.ts:634-669 | the same over every run in which retries, and no other calls, have to run to completion |
| ActivationTheorems.RescheduledOrphans | packages/cli/src/active-workflow-manager.ts:658-659 | putting back a retry whose entry has a live timer leaves that timer recorded nowhere, out of reach of emptying the queue |
| ActivationTheorems.EmptyQueueLeavesNoTimers | packages/cli/src/active-workflow-manager.ts:696-700 | in a consistent state emptying the queue leaves no timer at all |
| ActivationOutcomes.OverlapLeaksTimer | packages/cli/src/active-workflow-manager.ts:594-659 | from every consistent state in which the failure of a retry is being registered, early or late, a trigger error leads to a live timer that survives emptying the queue |
| ActivationOutcomes.LateFailure | packages/cli/src/active-workflow-manager.ts:587-598 | from every state in which a retry begins, bookkeeping that fails after the queue was cleared leads to such a failure with no queue entry left |
| ActivationOutcomes.LeakReached | packages/cli/src/active-workflow-manager.ts:367-391 | a run from the beginning that ends with a timer out of reach |
| ActivationOutcomes.QueuedIff | packages/cli/src/active-workflow-manager.ts:433-743 | a workflow is queued after an event if and only if a trigger error or failed start-up queues it, or it was queued and no `add` clears it, no `remove` takes it out, and the queue is not emptied |
| ActivationOutcomes.InErrorIff | packages/cli/src/active-workflow-manager.ts:377-742 | the same for activation errors: registered by trigger errors and failing calls, taken by successful ones, removals and clearing by hand |
| ActivationOutcomes.NextKeepsErrorsIff | packages/cli/src/active-workflow-manager.ts:587-599 | a queued workflow that is not being removed keeps an activation error if and only if the event does not clear errors by hand, deregister a workflow queued anew since its `add` cleared the queue, or queue at start-up a workflow whose error is gone |
| ActivationErrors.ForgetsIff | packages/cli/src/active-workflow-manager.ts:433-470 | where calls for one workflow do not mix and errors are not cleared by hand, an event leaves a queued workflow without an error if and only if it returns to the start-up loop a call that failed in saving alone, not for authorization |
| ActivationErrors.AlwaysHasErrorIff | packages/cli/src/active-workflow-manager.ts:587-603 | over every such run each queued workflow has an error in every state, or is being removed, if and only if no such call returns in it |
| ActivationErrors.SeparateRunKeepsErrors | packages/cli/src/active-workflow-manager.ts:377-390 | from the beginning, over every such run in which saving works or fails for authorization, each queued workflow has an error in every state, or is being removed |
| ActivationErrors.AtomicRunKeepsErrors | packages/cli/src/active-workflow-manager.ts:513-606 | the same when calls run to completion, for whatever workflows |
| ActivationErrors.StartupForgets | packages/cli/src/active-workflow-manager.ts:601-605 | for any workflow, a run from the beginning in which start-up adds it and only saving its static data fails ends with it queued and no error registered |
| ActivationErrors.RequeuedLosesError | packages/cli/src/active-workflow-manager.ts:587-590 | from every state in which an `add` has cleared the queue, a trigger error before it deregisters ends with the workflow queued and without an error |
| ActivationOutcomes.SettledAfterAdd | packages/cli/src/active-workflow-manager.ts:587-590 | an `add` that clears the queue and deregisters leaves its workflow neither queued nor in error, whatever else happens, as long as nothing queues it or registers an error again |
| ActivationOutcomes.SettledAfterRemove | packages/cli/src/active-workflow-manager.ts:734-738 | the same for `remove`, which deregisters first |
| ActivationOutcomes.CrashNeedsDequeue | packages/cli/src/active-workflow-manager.ts:641-643 | over every run from the firing of its timer, a retry reads a missing entry only if an `add`, a `remove` or emptying the queue has taken the entry out since |
| ActivationOutcomes.UninterruptedCrashIff | packages/cli/src/active-workflow-manager.ts:639-643 | a retry that nothing interrupts reads a missing entry exactly when its failure comes after it cleared the queue, or it found none |
| ActivationOutcomes.StartupFailureStays | packages/cli/src/active-workflow-manager.ts:446-469 | a workflow that failed at start-up but for authorization waits for its first retry, and over every undisturbed run stays queued with a timer or a retry until something takes it out |
| ActivationOutcomes.CompletedIsSteps | packages/cli/src/active-workflow-manager.ts:513-606 | the uninterrupted account of `add` is the run of its steps |
| ActivationStartup.StartupLosesNothing | packages/cli/src/active-workflow-manager.ts:433-470 | for distinct ids and any failures every workflow of a loop that nothing interrupts ends activated, waiting with the initial delay, or refused for authorization and not queued by start-up |
| ActivationStartup.StartAllFrame | packages/cli/src/active-workflow-manager.ts:433-470 | the iterations for other workflows leave the entry, timer, error and memory of a workflow as they are |
| ActivationStartup.RetryNotEarly | packages/cli/src/active-workflow-manager.ts:658-678 | no retry begins before all delays so far have passed since queueing, in closed form |
| ActivationStartup.StartAllIsRun | packages/cli/src/active-workflow-manager.ts:433-470 | the loop that nothing interrupts is a run in which, for one workflow after the other, a call begins in the mode of the loop and takes its steps |
| ActivationEffects.AuthorizationIff | packages/cli/src/active-workflow-manager.ts:466-466 | start-up gives up on a message exactly when it has the word at some position |
| ActivationEffects.StepMovesCall | packages/cli/src/active-workflow-manager.ts:513-743 | the stages of a call, one answer after the other: which answer it fails with and which message, and whether an activation message is shown |
| ActivationEffects.CallsBegin | packages/cli/src/active-workflow-manager.ts:634-640 | which call an event begins, for which workflow and in which mode |
| ActivationEffects.MemoryIff | packages/cli/src/active-workflow-manager.ts:571-743 | a workflow is in memory after an event if and only if an `add` gets to its triggers, or it was and no `remove` or trigger error closes them |
| ActivationEffects.NextWebhooks | packages/cli/src/active-workflow-manager.ts:140-223 | the table of webhooks changes with the first step of `add` and `remove` only, and then as registering and clearing do; not in mode `leadershipChange` |
| ActivationEffects.ErrorText | packages/cli/src/active-workflow-manager.ts:377-597 | an activation error has the message of the failure registered last |
| ActivationEffects.EntryAfter | packages/cli/src/active-workflow-manager.ts:627-681 | entry and timer after every event: made anew for 1000 ms by a trigger error in its mode and by start-up in mode `init`, set back for twice as long up to 86400000 ms by a failed retry, in the modes that entry and retry had, and otherwise as before |
| ActivationEffects.TimersAfter | packages/cli/src/active-workflow-manager.ts:658-680 | no other timer comes up, changes, or lives on once it is spent |
| ActivationModes.RetriedInItsMode | packages/cli/src/active-workflow-manager.ts:634-681 | from the beginning, over every run in which no workflow is queued while a retry of it is under way, every retry is in the mode of the queue entry |
| ActivationRemoval.RemovalRemoves | packages/cli/src/active-workflow-manager.ts:709-743 | a `remove` whose deregistering works, from any state: no webhook of the workflow is left if they can be cleared, it is out of memory if its triggers can be closed, neither queued nor in error, and other workflows keep everything |
| ActivationRemoval.RemovalStopsHalfway | packages/cli/src/active-workflow-manager.ts:725-734 | if deregistering fails, the webhooks are gone and everything else is as before |
| ActivationRemoval.GoneStaysGone | packages/cli/src/active-workflow-manager.ts:726-742 | without webhooks, or out of memory, a workflow stays so over every run in which no `add` of it begins its work |
| ActivationRemoval.AddActivates | packages/cli/src/active-workflow-manager.ts:513-606 | an `add` that nothing fails, from any state: webhooks stored, triggers running, neither queued nor in error, and other workflows keep theirs |
| ActivationOutcomes.InitialInv | packages/cli/src/active-workflow-manager.ts:643-680 | the empty manager satisfies the invariants |
| ActiveExecutions.ActiveExecutions.BeginAdd | packages/cli/src/active-executions.ts:77-85 | throttling lets an uncounted mode pass, takes capacity from a counted one and queues it when none is left |
| ActiveExecutions.ActiveExecutions.FinishAdd | packages/cli/src/active-executions.ts:87-104 | a resumed execution whose update fails is not inserted; every other one is, without promises |
| ActiveExecutions.ActiveExecutions.GetPostExecutePromise | packages/cli/src/active-executions.ts:184-189 | an active execution gets one more pending promise; otherwise it throws and leaves none |
| ActiveExecutions.ActiveExecutions.AttachWorkflowExecution | packages/cli/src/active-executions.ts:111-113 | an active execution becomes one that can be cancelled; otherwise it throws and changes nothing |
| ActiveExecutions.ActiveExecutions.Remove | packages/cli/src/active-executions.ts:134-146 | all promises of the execution are resolved with the data, then its entry and capacity go |
| ActiveExecutions.ActiveExecutions.StopExecution | packages/cli/src/active-executions.ts:151-167 | without an attached run it throws before anything changes; otherwise all promises are rejected and the entry and capacity go |
| ActiveExecutions.ActiveExecutions.PostExecuteCleanup | packages/cli/src/active-executions.ts:169-179 | the entry is deleted and its capacity returned once, which lets the first waiting execution pass |
| ActiveExecutions.ActiveExecutions.RemoveFromQueue | packages/cli/src/concurrency/concurrency-queue.ts:44-54 | the first waiting call of the execution leaves the queue, capacity grows and the next one passes |
| ActiveExecutions.ActiveExecutions.Release | packages/cli/src/concurrency/concurrency-control.service.ts:96-100 | capacity comes back only while the service is enabled and for a counted mode |
| ActiveExecutions.ActiveExecutions.ShutdownCancellingAll | packages/cli/src/active-executions.ts:223-238 | the service is disabled, then the executions are stopped one after the other until one cannot be |
| ExecutionsTheorems.NextKeepsInvIff | packages/cli/src/active-executions.ts:52-189 | for every event the queue, the entries, the slots, the capacity and the promises stay consistent if and only if no id is inserted while it is active |
| ExecutionsTheorems.RunKeepsInv | packages/cli/src/active-executions.ts:52-189 | over every run in which no id is added while active, all five parts stay consistent |
| ExecutionsTheorems.InvLinked | packages/cli/src/active-executions.ts:134-179 | in a consistent state every entry, waiting call and listed promise is known, so no operation reads a missing one |
| ExecutionsTheorems.InitialInv | packages/cli/src/concurrency/concurrency-control.service.ts:34-54 | a fresh service is consistent and within its limit |
| ExecutionsTheorems.Conservation | packages/cli/src/active-executions.ts:77-179 | per mode: completed throttles minus releases equals active entries plus adds between throttle and insert plus adds whose update failed, and no insertion is released twice |
| ExecutionsTheorems.WithinLimitIff | packages/cli/src/concurrency/concurrency-queue.ts:44-54 | an event takes the running executions over the limit exactly when it takes one out of a queue of several |
| ExecutionsTheorems.OvertakingRun | packages/cli/src/concurrency/concurrency-queue.ts:44-54 | a run from the beginning, with a limit of one, after which two executions run |
| ExecutionsTheorems.RunKeepsLimit | packages/cli/src/concurrency/concurrency-queue.ts:21-70 | over every run without such a removal the limit holds |
| ExecutionsTheorems.PendingMeansActive | packages/cli/src/active-executions.ts:134-189 | a pending promise is in the list of exactly one active execution, the one it was made for |
| ExecutionsTheorems.FinishSettles | packages/cli/src/active-executions.ts:140-166 | exactly the promises of the execution are settled, all with the same outcome |
| ExecutionsTheorems.RunKeepsSettled | packages/cli/src/active-executions.ts:134-167 | over every run, whatever ids are added twice, a settled promise keeps its outcome, so none is both resolved and rejected |
| ExecutionsTheorems.FinishWhileDisabled | packages/cli/src/active-executions.ts:226-230 | while the service is disabled an ending execution lets nothing waiting pass |
| ExecutionsTheorems.ShutdownStopsAll | packages/cli/src/active-executions.ts:223-238 | when a run is attached to every execution, cancelling shutdown leaves none active and rejects every promise that was pending, and what waited in the queue still waits there |
| ExecutionsTheorems.StopAllStops | packages/cli/src/active-executions.ts:237-237 | stopping a list of executions removes exactly these and rejects exactly their promises |
| ExecutionsEffects.BeginThrottles | packages/cli/src/concurrency/concurrency-control.service.ts:155-170 | an `add` takes capacity exactly in modes webhook and trigger of an enabled service with a limit, and waits at the end of the queue exactly when none is left |
| ExecutionsEffects.EndInserts | packages/cli/src/active-executions.ts:87-104 | past the throttle the execution is active, without promises and run, unless it is resumed and its update fails |
| ExecutionsEffects.PromiseAppended | packages/cli/src/active-executions.ts:184-189 | an active execution gets one more pending promise at the end of its list, and another id none |
| ExecutionsEffects.RunAttached | packages/cli/src/active-executions.ts:111-113 | a run is attached to an active execution, and nothing else changes |
| ExecutionsEffects.RemoveResolves | packages/cli/src/active-executions.ts:134-146 | removing resolves exactly the promises of the execution, with the data, and lets its entry and capacity go |
| ExecutionsEffects.StopRejects | packages/cli/src/active-executions.ts:151-167 | stopping an execution with a run rejects exactly its promises; without a run nothing happens |
| ExecutionsEffects.CancelTakesOut | packages/cli/src/concurrency/concurrency-queue.ts:44-54 | the first waiting call of the execution leaves, one unit of capacity comes back and the call then in front passes; nothing happens if none waits or the service is disabled |
| ExecutionsEffects.ShutdownEndsWithoutRun | packages/cli/src/active-executions.ts:237-237 | cancelling on shutdown ends at the first execution without a run; those before it are stopped and all others stay |
| ExecutionsEffects.ProductionWithinLimit | packages/cli/src/concurrency/concurrency-control.service.ts:155-170 | from the beginning, over every run without the two exceptions, no more webhook and trigger executions run than the limit allows, as long as the service is enabled |
| WaitTracking.WaitTracker.SetTimer | packages/cli/src/wait-tracker.ts:78-89 | an execution without an entry gets a timer and an entry, due at its time but after 1 ms at least |
| WaitTracking.WaitTracker.GetWaitingExecutions | packages/cli/src/wait-tracker.ts:62-90 | each reported execution without an entry gets a timer for its time, and those with an entry none |
| WaitTracking.WaitTracker.StartExecution | packages/cli/src/wait-tracker.ts:100-140 | the spent timer and the entry go, and the execution is started |
| WaitTracking.WaitTracker.Stop | packages/cli/src/wait-tracker.ts:92-98 | the timer and the entry go, if there is one |
| WaitTracking.WaitTracker.Start | packages/cli/src/wait-tracker.ts:51-60 | a new poll interval runs and the first poll is made |
| WaitTracking.WaitTracker.StopAll | packages/cli/src/wait-tracker.ts:142-149 | the interval and the timers of all entries are cleared, and the entries stay |
| WaitTrackingTheorems.NextKeepsTimers | packages/cli/src/wait-tracker.ts:51-149 | every event keeps live timers one to one with some entries, and with all of them unless tracking ends |
| WaitTrackingTheorems.RunKeepsTimers | packages/cli/src/wait-tracker.ts:51-149 | the same over every run, with equality until the first `stopTracking` |
| WaitTrackingTheorems.EndTrackingLeavesNoTimers | packages/cli/src/wait-tracker.ts:142-149 | at the moment of a stop no timer is live, and every entry is kept |
| WaitTrackingRuns.QuietAfterStopIff | packages/cli/src/wait-tracker.ts:51-149 | over every run after a stop, no timer is live until tracking is started anew, if and only if the stop leaves no interval behind |
| WaitTrackingRuns.NextKeepsOneIntervalIff | packages/cli/src/wait-tracker.ts:55-57 | an event leaves more than the interval of the latest start running if and only if it starts tracking while one runs |
| WaitTrackingRuns.QuietBetweenTracking | packages/cli/src/wait-tracker.ts:51-149 | from the beginning, over every run in which starts and stops alternate, no timer is live between a stop and the next start |
| WaitTrackingRuns.StartedTwice | packages/cli/src/wait-tracker.ts:51-60 | tracking started twice and stopped once: an execution that begins to wait afterwards gets a timer |
| WaitTrackingTheorems.NextKeepsStartsIff | packages/cli/src/wait-tracker.ts:62-102 | an event keeps starts proper, single per period and timers current if and only if it is neither a poll of a started row not cleared yet nor the clearing of a row under a live timer |
| WaitTrackingTheorems.EachPeriodStartsOnce | packages/cli/src/active-executions.ts:82-102 | from the beginning, in every run without those two races, each waiting period is started at most once and never before its `waitTill` |
| WaitTrackingTheorems.SlowResumeStartsTwice | packages/cli/src/wait-tracker.ts:78-102 | from every consistent state, a poll between a start and the clearing of its row leads to a second start for the same period |
| WaitTrackingTheorems.StaleTimerStartsEarly | packages/cli/src/wait-tracker.ts:78-102 | from every consistent state, an execution resumed by other means that waits anew is started by its old timer before its new time |
| WaitTrackingTheorems.StaleNeverStarts | packages/cli/src/wait-tracker.ts:80-80 | an entry whose timer was cleared keeps its execution from being started, over every run that does not stop it by hand |
| WaitTrackingTheorems.EndTrackingLeavesStale | packages/cli/src/wait-tracker.ts:142-149 | after `stopTracking` every entry is such an entry |
| WaitTrackingRuns.WaitsAreServed | packages/cli/src/databases/repositories/execution.repository.ts:520-526 | from the beginning, over every run with tracking, polls in time and no race, an execution that was to wait for more than 60 s has, from 10 s before its time on, a live timer due exactly at its time, as long as it has not been started |
| WaitTrackingRuns.NextServes | packages/cli/src/wait-tracker.ts:54-90 | the step of it: no event but a race, a stop of tracking or a stop by hand takes that away |
| WaitTrackingEffects.TrackingArms | packages/cli/src/wait-tracker.ts:51-90 | a poll arms exactly the executions that wait no longer than 70 s from now and have no entry, each for the end of its wait or a millisecond from now; starting adds an interval |
| WaitTrackingEffects.FiringStarts | packages/cli/src/wait-tracker.ts:100-102 | a due timer starts its execution once, now; its entry and timer go and the others stay |
| WaitTrackingEffects.StoppingStops | packages/cli/src/wait-tracker.ts:92-98 | a stopped execution has neither entry nor timer, and the others keep theirs |
| WaitTrackingEffects.EndingClears | packages/cli/src/wait-tracker.ts:142-149 | `stopTracking` clears every timer and the latest interval, and nothing else |
| WaitTrackingEffects.StoppedStaysStopped | packages/cli/src/wait-tracker.ts:92-98 | over every later run a stopped execution is not started until a poll reports it anew |
| LoadNodesAndCredentials.LoadNodesAndCredentials.CopyCredential | packages/cli/src/load-nodes-and-credentials.ts:323-339 | the entry of a type has an array of supported nodes of its own, prefixed for packages and dropped for other loaders |
| LoadNodesAndCredentials.LoadNodesAndCredentials.MergeLoaders | packages/cli/src/load-nodes-and-credentials.ts:296-340 | the tables are the merge of the loaders, no two entries share an array of supported nodes, and every array of a loader is as before |
| LoadNodesAndCredentials.LoadNodesAndCredentials.PushTool | packages/cli/src/load-nodes-and-credentials.ts:285-291 | a tool is pushed to exactly the lists that have its node, and no array that existed before post-processing changes |
| LoadNodesAndCredentials.LoadNodesAndCredentials.CreateAiTools | packages/cli/src/load-nodes-and-credentials.ts:273-293 | one tool for each usable node, on copies of its options in arrays of their own, known as its node is |
| LoadNodesAndCredentials.LoadNodesAndCredentials.InjectIntoNode | packages/cli/src/load-nodes-and-credentials.ts:238-249 | every resource and operation list ends with the custom call, once; it fails exactly when one is empty |
| LoadNodesAndCredentials.LoadNodesAndCredentials.InjectCustomApiCallOptions | packages/cli/src/load-nodes-and-credentials.ts:230-252 | the same over all latest nodes that support proxy authentication, however lists are shared |
| LoadNodesAndCredentials.LoadNodesAndCredentials.PostProcessLoaders | packages/cli/src/load-nodes-and-credentials.ts:295-344 | the known tables and descriptions are those of the loaders with the tools, the loaders' arrays of names are untouched, and it fails exactly when a node that takes custom calls has an empty list |
| NodeLoadingTheorems.ReprocessedIsSame | packages/cli/src/load-nodes-and-credentials.ts:295-344 | running it again on unchanged loaders works, gives equal known tables and supported nodes, and pushes nothing into the loaders' options |
| NodeLoadingTheorems.ToolSameIff | packages/cli/src/load-nodes-and-credentials.ts:277-282 | a tool made anew has the same options as before if and only if they are not shared with a node that takes custom calls where its own does not, or already ended with the custom call |
| NodeLoadingTheorems.ToolsSettle | packages/cli/src/load-nodes-and-credentials.ts:277-282 | from the second time on a tool made anew has the same options |
| NodeLoadingExample.SharedOptionsChangeTool | packages/cli/src/load-nodes-and-credentials.ts:230-293 | two versions of a node share one list and only the latest takes custom calls: the second round of post-processing gives the tool of the other one an option more |
| NodeLoadingTheorems.LaterLoaderWins | packages/cli/src/load-nodes-and-credentials.ts:323-339 | the merged table has exactly the types that some loader knows, each with the entry of the last of these loaders |
| NodeLoadingTheorems.SupportedNodesAndTheirTools | packages/cli/src/load-nodes-and-credentials.ts:277-291 | when no usable node is named like an earlier tool, a type supports its nodes and exactly their tools |
| NodeLoadingSteps.TargetsWithTools | packages/cli/src/load-nodes-and-credentials.ts:230-252 | the lists that get a custom call, once tools have been made, are those of the loaders' nodes and the copies of each tool's own |
| NodeLoadingSteps.ToolTargetAt | packages/cli/src/load-nodes-and-credentials.ts:277-282 | a tool's copy of a list gets a custom call exactly when its node takes one for that list |
| NodeLoadingSteps.EmptyTargets | packages/cli/src/load-nodes-and-credentials.ts:238-243 | making tools neither adds nor hides an empty list |
| NodeLoadingEffects.LoadersInOrder | packages/cli/src/load-nodes-and-credentials.ts:300-304 | nodes and credentials are those of the loaders, one after the other |
| NodeLoadingEffects.CallsAdded | packages/cli/src/load-nodes-and-credentials.ts:230-252 | a list ends with "Custom API Call", once, if it is that of a property "resource" or "operation" of a latest node with a credential that authenticates or extends one of three OAuth types; any other list of the loaders is as before |
| NodeLoadingEffects.WorksIff | packages/cli/src/load-nodes-and-credentials.ts:238-243 | post-processing works exactly if no such list is empty |
| NodeLoadingEffects.CredentialsKnown | packages/cli/src/load-nodes-and-credentials.ts:323-340 | a known credential is that of the last loader that has it, its path inside the directory of the loader, its nodes with the name of the package before them and their tools behind |
| NodeLoadingEffects.ToolsFollowNodes | packages/cli/src/load-nodes-and-credentials.ts:273-284 | behind the nodes comes the tool of each usable one, in order: named after it, no tool itself, described, on copies of its options |
| NodeLoadingEffects.NodesKnown | packages/cli/src/load-nodes-and-credentials.ts:315-321 | a known node is that of the last loader that has it; a tool is known as its node is |

## Left out

- ActivationTheorems.RunKeepsInv: a run goes wrong only from the step that `NextKeepsInvIff` singles out; what the manager does after that step is not followed further.
- ActivationStartup.StartupLosesNothing: the loop is not interrupted here, and its ids are distinct, being rows of a table keyed by id; what holds with other events in between is stated by `StartupFailureStays`, `SettledAfterAdd` and `QueuedIff`.
- ActivationOutcomes.NextKeepsErrorsIff: registering an error is taken to work; where calls for one workflow mix, the condition is stated event by event and not over whole runs.
- ActiveWorkflowManager.Manager.Prepare: the webhooks and triggers of one call are done in one step, so that two calls of `add` do not mix their writes to the table of webhooks; nothing in that part reads or changes the queue.
- ActiveWorkflowManager.Manager.EmitError: the source starts registering the error and closing the triggers without awaiting either; both are done in the step that queues the workflow, so what another event would see between them is not covered.
- ActiveWorkflowManager.Manager.AddActiveWorkflows: nothing else happens between the iterations of the loop; start-up calls that other events interrupt are those of `StartupOne` in the runs.
- CredentialOverwritesTheorems.EmptyEntriesHarmlessIff: the registry recognises every base and names none twice; `EmptyEntryKeepsAnswer` needs neither.
- ExecutionsTheorems.RunKeepsInv: an id that is added while active replaces its entry; then capacity and promises of the first one are lost, and only the step that does it is characterised.
- ActiveExecutions.ActiveExecutions.ShutdownCancellingAll: the loop that waits until nothing is active is left out, since it only sleeps and looks again; emptying the queue is left out because the service is disabled at that point.
- ActiveExecutions.ActiveExecutions.StopExecution: `cancel()` of a run is taken not to call back into the registry.
- CredentialRepair.ReplaceInvalidCredentials: cache objects that end up shared between nodes are values here; nothing in the procedure writes to them later. Nodes of a parsed workflow are distinct objects.
- CredentialHierarchy.CredentialTypes.GetByName: whether loading a class throws is not modelled, only that an unknown type is refused.
- CredentialOverwrites.CredentialsOverwrites.SetData: the given table is not shared with anything else that is modelled.
- WaitTracking.WaitTracker.GetWaitingExecutions: a poll reads the database and arms in one step; rows marked as crashed are not rows of the model.
- WaitTracking.WaitTracker.StartExecution: what resuming does after reading the row (missing, finished or unsaved executions) is only logged by the source and left to the environment.
- LoadNodesAndCredentials.LoadNodesAndCredentials.PostProcessLoaders: the tables of loaded classes, which merge in the same way, the registered post-processors, and path normalisation by `path.join` are left out; the inputs, outputs and texts of a tool's description are not kept.
- LoadNodesAndCredentials.LoadNodesAndCredentials.CloneOptions: only the option arrays of a description are copied, with sharing kept inside it; the other parts have no arrays that are pushed to.
- Loading itself (`DirectoryLoader`): post-processing is repeated on unchanged loaders; what a loader reads anew on a hot reload is its own matter.
- `removeAll` of the activation manager calls `remove` for each active workflow and adds no state.
- Multi-main publishing in `add` and `remove`: those branches forward a message and return; single-main mode is modelled.
- `populateCache` and saving static data appear only as possible failures; the cache of webhooks is not modelled.
- The error workflow, logging, telemetry and the response promise of an execution change nothing that is modelled.
- `setTimeout` is a discrete clock: a timer may run at its due time or later, never earlier.
- `credentials-helper.ts` and `node-types.ts`: their hard parts are in the expression evaluator and `Workflow`, which are not part of this model.
