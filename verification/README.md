# Hecatoncheires use cases, verified

A Dafny model of the use-case layer of Hecatoncheires, a case-management service that lives in Slack: cases with
their drafts, channels, threads and board columns; the actions under them and their event log; the rolling channel
notification; the paged history of job runs; the token cache; the planner's question form; and the YAML import.

Run `dafny verify dfyconfig.toml` to check everything.

## How it is built

Each operation is specified by a function from the stored state, the call and the answers of the outside world
(Slack, the repositories, the validator, the clock) to the new state and the result. A write is acknowledged, lost, or
applied although an error is reported. Classes with the operations' own steps are proved against these functions, and
lemmas prove what the functions promise over all runs; the classes carry the invariants of those runs, each under its
own condition on the calls made so far. A property that the code does not have in full is stated with
the exact condition under which it holds, and with a run or a family of runs that breaks it otherwise.

| file | contents |
|---|---|
| `Cases.dfy` | the Case record, registry facts, access gates |
| `CaseSpec.dfy`, `CaseUseCase.dfy` | the case operations as functions, and as methods over a store |
| `CaseShape.dfy`, `CaseTrace.dfy` | what one call may do to the store, and tell the outside world |
| `CaseTheorems.dfy`, `CaseRollback.dfy`, `CaseLifecycle.dfy`, `CaseRuns.dfy` | invariants over whole runs |
| `CaseOutcomes.dfy`, `CasePromises.dfy` | what a failed call leaves behind, and when and what a successful one stores and tells |
| `Assignees.dfy` | assignment transactions and the edit modal |
| `CaseReads.dfy` | batched reads against pointwise ones |
| `JobRuns.dfy` | keyset pagination |
| `NotificationSlots.dfy`, `SlotRendering.dfy` | the notification slot in time, and on screen |
| `Actions.dfy`, `ActionHistory.dfy`, `ActionPromises.dfy`, `ActionUseCase.dfy` | actions and their event log |
| `AuthCache.dfy` | the token cache as interleaved steps |
| `QuestionForms.dfy`, `FormResume.dfy` | the question form and the one turn it starts |
| `ImportPreview.dfy`, `ImportExecute.dfy` | the import |
| `Text.dfy`, `WireIds.dfy` | text primitives and wire identifiers |

## What the code does not promise

- `List` orders a job's logs by start time only, so over the in-memory store, which gives any answer that allows
  (`JobRuns.InMemoryListIsAnyList`), a tie at the hundredth log can spoil a first page
  (`JobRuns.FirstPageIsNewestExactlyWhen`). Firestore orders ties by document name, here the run id, so its pages are
  right (`JobRuns.FirestorePageIsNewest`, from `JobRuns.CleanCutsGiveTheFirstPage`). With both, logs beyond the newest
  hundred of a job are never reached by paging (`JobRuns.WalkReachesEveryLogExactlyWhen`).
- A draft moved to a closed column and then submitted is an open case in a closed column, even when the submission
  fails and its binding stays (`CaseLifecycle.PromotionInStepExactlyWhen`); promotion does not sync the status.
- A draft whose status flip is applied but reported as failed is returned before the rollback and stays open and
  unbound (`CaseRollback.CaseIsStrandedExactlyWhen`).
- A creation that finds an open case without a channel under its request key activates that case again, and deletes it
  or leaves it rewritten when that fails (`CaseOutcomes.FailedCreateIsAtomicExactlyWhen`).
- Discarding a draft, and the deletion after a creation's failed retry, remove the case without its actions, unlike
  DeleteCase (`CaseUseCase.UseCase.DiscardDraft`, `CaseOutcomes.CreationOrphansExactlyWhen`).
- When the edit modal's addition is stored but reports an error, its removal is not sent
  (`Assignees.ModalReachesSelectionExactlyWhen`).
- UpdateCase stores the whole record it loaded, so assignments committed in between are lost although they were announced
  (`CaseOutcomes.OverlappingUpdateAgreesExactlyWhen`).
- In a thread-mode workspace CreateCase drops the assignees and the test flag (`CaseOutcomes.CreatedCaseHoldsItsInput`).
- The creator of a private case is shut out of its content when the member sync fails or Slack is not wired
  (`CaseOutcomes.CreatorReadsBackExactlyWhen`).
- Logout empties the cache before it deletes the token, so a validation in between puts it back
  (`AuthCache.LogoutRacesWithValidation`). A token gone from the store is finished on an instance exactly when no live
  entry and no request under way there can still let it through (`AuthCache.TokenIsEndedExactlyWhen`).
- A session document stored back by one press overwrites a form posted in the meantime
  (`FormResume.FormIsOverwrittenExactlyWhen`).
- A complete answer to the question form is dropped for good when its press meets a busy thread, or a failing spawn,
  after the form was cleared (`FormResume.AnswerIsLostExactlyWhen`).
- An action whose first Slack message was posted but whose timestamp could not be stored is handed out with a timestamp
  that is not stored (`ActionUseCase.UseCase.CreateAction`).
- The comment on import's Execute says that the first failure halts the loop; the loop tries every row, and so does
  the model.

## Model

| member | source | states |
|---|---|---|
| Cases.ReadAndWriteGatesAgree | pkg/usecase/case_access.go:36-58 | the write gate admits a caller exactly when GetCase shows that caller the whole record; whoever is not admitted sees nothing, or a record without title, assignees, channel and members |
| Cases.WriteGateIs | pkg/usecase/case_access.go:36-58 | a member may write a public case, their own private draft, and a private case whose channel lists them; the system may write any |
| Assignees.AssignUsers | pkg/domain/model/case.go:181-199 | the list becomes the ordered union with the non-blank ids; changed exactly when the list differs |
| Assignees.UnassignUsers | pkg/domain/model/case.go:204-225 | the ids that are not removed remain, in order; changed exactly when the list differs |
| Assignees.AddedInOrder | pkg/domain/model/case.go:181-199 | what is added is new and not blank, each name once, in the order of the request |
| Assignees.RemainsInOrder | pkg/domain/model/case.go:204-225 | what remains keeps its order and its repeats |
| Assignees.DiffAssignees | pkg/usecase/case.go:1227-1253 | additions and removals are the two set differences, blanks dropped |
| Assignees.DifferenceInOrder | pkg/usecase/case.go:1227-1253 | the difference keeps the order and the repeats |
| Assignees.AssigneeStore.Attempt | pkg/usecase/case.go:1105-1168 | one run of the transaction closure: it resets what it captured, checks access, diffs the record it was given and stamps it when it changed |
| Assignees.AssigneeStore.Transact | pkg/usecase/case.go:1105-1220 | however many attempts lose the race, the stored record and the announcement are those of the attempt that commits; a commit that is applied but reported as failed stores and stays silent |
| Assignees.CommitIsHonest | pkg/usecase/case.go:1105-1220 | an announcement names exactly the users whose membership its transaction changed |
| Assignees.ReplayKeepsUpExactlyWhen | pkg/usecase/case.go:1105-1220 | one transaction keeps the replayed announcements at the stored set exactly when it does not change the set under a commit that is applied but reported as failed |
| Assignees.ReplayGivesStoredSet | pkg/usecase/case.go:1105-1253 | replaying the announcements of any run without such a commit in commit order from the first assignee set gives the stored set, each announcement honest at its place |
| Assignees.ModalReachesSelectionExactlyWhen | pkg/usecase/slack_command.go:1028-1048 | with nobody else writing, the edit modal ends with exactly the selected users if and only if its addition, if any, reports success, or is stored without removals after it, and its removal, if any, is stored; an addition that reports a failure, unknown users included, keeps the removal from being sent |
| Assignees.AssigneeStore.Reconcile | pkg/usecase/slack_command.go:1028-1048 | the call does what the two transactions do, reports success only at the selection, and reaches it under that condition |
| Assignees.ModalLeavesOthersAlone | pkg/usecase/slack_command.go:1028-1048 | with any other transactions before, between and after, whatever becomes of the modal's own, a user it neither added nor removed ends as if it had not been submitted |
| CaseUseCase.UseCase.CreateCase | pkg/usecase/case.go:602-739 | a repeated key is answered with a case stored under it and changes nothing, unless that case still waits for its channel; a new case is made exactly when validation, reporter, root or channel and writes go through, holds its input, hangs where its route says and is announced; a refused call leaves the store as it was exactly when it leaves no trace, and actions without their case exactly when its failed retry deleted one that had some |
| CaseUseCase.UseCase.CreateDraft | pkg/usecase/case.go:749-762 | the exact condition of success; a new draft takes the next id, holds its input with the validated field values and is the only change; a refused one changes nothing unless its write was applied but reported as failed |
| CaseUseCase.UseCase.SubmitDraft | pkg/usecase/case.go:1984-2156 | goes through exactly when its caller sees the draft, its edits are stored, the edited draft has its title and required fields, and flip and activation are acknowledged; then stores the draft with exactly those edits, opened and hung up, and announces it; an incomplete draft is refused as what it lacks, and a failed activation whose rollback goes through leaves the edited draft |
| CaseUseCase.UseCase.DiscardDraft | pkg/usecase/case.go:2163-2172 | succeeds exactly for a draft its caller may see and an acknowledged deletion; never removes anything but that draft; leaves actions without their case exactly when the draft had some |
| CaseUseCase.UseCase.UpdateCase | pkg/usecase/case.go:1003-1096 | the exact condition of success; the rename is asked for exactly when a title changes on a case with a channel of its own, before anything is stored; afterwards its caller reads the whole record back as patched, and no other record has changed; a refused update, its write not applied, changes nothing |
| CaseUseCase.UseCase.MaterializeThreadCase | pkg/usecase/case.go:1826-1852 | fills in what was found and never empties a text or drops a field; the exact condition of success |
| CaseUseCase.UseCase.Reassign | pkg/usecase/case.go:1105-1220 | the assignee set changes by exactly the named users, nothing else does, and a list that stays the same leaves the record alone |
| CaseUseCase.UseCase.SyncCaseChannelUsers | pkg/usecase/case.go:2194-2224 | the exact condition of success; afterwards a private submitted case may be written by exactly the members synced |
| CaseUseCase.UseCase.DeleteCase | pkg/usecase/case.go:1332-1361 | succeeds exactly behind the write gate, with every deletion acknowledged; removes the case only after all its actions, so that none is left without it, touches no other action, and never frees an id |
| CaseUseCase.UseCase.CloseCase | pkg/usecase/case.go:1666-1697 | succeeds exactly for an open case without a thread, changes its status and update time alone, and publishes Closed exactly when it succeeds |
| CaseUseCase.UseCase.ReopenCase | pkg/usecase/case.go:1699-1728 | succeeds exactly for a closed case without a thread and changes its status and update time alone |
| CaseUseCase.UseCase.UpdateCaseStatus | pkg/usecase/case.go:1859-1909 | the exact condition of success; the case is then closed exactly when its column is a closed one, a draft keeps its status, and Closed is published exactly for a crossing |
| CaseUseCase.UseCase.CreateCaseOfTurn | pkg/usecase/threadcase_durable.go:40-57 | the exact condition of success; a thread that has a case is answered with it and left alone, any other gets a new case with the texts and fields given, announced; it is the only one with the thread |
| CaseShape.StepShape | pkg/usecase/case.go:520-552 | every operation touches one record, and creates or changes it in one of a listed set of ways |
| CaseTrace.StepTrace | pkg/usecase/case.go:602-2156 | every operation adds at most two Slack calls or events, each of a listed kind; a Closed event stands for a crossing it stored, a Created event for an open, bound record |
| CaseTheorems.ThreadWorkspaceIsSafe | pkg/usecase/case.go:520-552 | in a thread-mode workspace with Slack and a monitor channel no run asks Slack to make or rename a channel, answered or not, or stores a private case, and a case has a thread exactly when its channel is the monitored one |
| CaseTheorems.OneCasePerThread | pkg/usecase/case.go:1777-1820 | with fresh roots no two cases share a channel and thread |
| CaseTheorems.NewThreadIsFree | pkg/usecase/case.go:2106-2119 | a thread that a call gives to a record belonged to nobody |
| CaseRuns.ThreadWorkspaceRun | pkg/usecase/case.go:520-552 | the four thread-mode invariants for every run from an empty store |
| CaseRuns.LifecycleRun | pkg/usecase/case.go:1859-1909 | closings and Closed events add up, and status and column agree, for every run from an empty store |
| CaseRuns.RequestKeyRun | pkg/usecase/case.go:619-656 | at most one case a request key and one Created event a case, for every run from an empty store |
| CaseRuns.EveryCallKeeps | pkg/usecase/case.go:602-2156 | each call keeps every run invariant whose condition the calls so far have met |
| CaseRuns.EveryRunKeeps | pkg/usecase/case.go:602-2156 | so does every run, from any store that has them |
| CaseRollback.FailedSubmitKeepsTheDraft | pkg/usecase/case.go:2093-2148 | after a failed activation whose rollback goes through, the stored record is the submitted draft again in every field but the update time and the synced members, even if an activation write was applied but reported as failed; no other record changes |
| CaseRollback.PromoteRollsBack | pkg/usecase/case.go:2093-2148 | the same for the promotion alone |
| CaseRollback.CaseIsStrandedExactlyWhen | pkg/usecase/case.go:2088-2148 | a call leaves a case that is neither draft nor bound exactly when it is a submission that passes its checks and whose flip is applied but unacknowledged, or that writes no binding and whose rollback does not write |
| CaseRollback.SubmittedCasesAreBound | pkg/usecase/case.go:2093-2156 | over every run without such a submission, every case that is not a draft is thread-bound |
| CaseLifecycle.BoundCaseClosedIffColumnClosed | pkg/usecase/case.go:488-502 | over every run that moves no draft to a closed column, a thread-bound case is Closed exactly when its column is a closed one |
| CaseLifecycle.PromotionInStepExactlyWhen | pkg/usecase/case.go:2037-2143 | whatever a submission answers, the stored record is in step afterwards exactly when it was not a draft that waits in a closed column and whose binding is written and not taken back |
| CaseLifecycle.ClosedDraftComesOutOpen | pkg/usecase/case.go:1859-1909 | a concrete run in which a draft moved to a closed column and then submitted is an open case in a closed column |
| CaseLifecycle.ClosedEventsCountClosings | pkg/usecase/case.go:1666-1728 | over every run, Closed events plus closings applied but unacknowledged equal the crossings from not closed to closed |
| CaseLifecycle.EachCaseAnnouncedOnce | pkg/usecase/case.go:694-700 | with Slack wired each case receives at most one Created event, and is from then on never a draft nor without channel |
| CaseLifecycle.CreatedMeansOpenAndBound | pkg/usecase/case.go:2150-2155 | a Created event comes last and shows the record as stored, open and with its Slack binding |
| CaseLifecycle.WithoutSlackAKeyIsAnnouncedAgain | pkg/usecase/case.go:619-656 | without Slack, in any workspace whose cases go by the channel route, a repeated request key publishes the case again |
| CaseLifecycle.OneCasePerKey | pkg/usecase/case.go:807-814 | with key lookups that succeed at most one stored case carries a given request key |
| CasePromises.RouteIs | pkg/usecase/case.go:504-598 | a case goes to a thread, to a channel, or nowhere, exactly by the privacy asked for, the mode, Slack and the monitored channel, and the refusal says why |
| CasePromises.ActivationIs | pkg/usecase/case.go:879-978 | an activation goes through exactly when its channel or root is made and the record written; it changes the place, the members and the time alone |
| CasePromises.SubmittedIs | pkg/usecase/case.go:1984-2033 | the draft a promotion starts from exists exactly when its caller sees it and its edits are valid and stored, and is the stored draft with exactly those edits |
| CasePromises.SubmissionIs | pkg/usecase/case.go:1984-2156 | what SubmitDraft stores, tells and answers, from the stored draft, the edits and the outside answers |
| CasePromises.CreationIs | pkg/usecase/case.go:602-739 | what CreateCase stores, tells and answers, on both routes, for new and repeated keys |
| CasePromises.ThreadCaseIs | pkg/usecase/case.go:1777-1820 | what the creation for a thread stores, tells and answers |
| CasePromises.UpdateIs | pkg/usecase/case.go:1003-1096 | when an update succeeds, what it renames and what it stores |
| CasePromises.MoveIs | pkg/usecase/case.go:1859-1909 | when a move on the board succeeds, what it stores and what it publishes |
| CaseOutcomes.FailedCreateIsAtomicExactlyWhen | pkg/usecase/case.go:619-656 | a failed creation leaves the store as it was exactly when it leaves no trace: no row whose write was applied but reported as failed, no undeletable row of a failed activation, and no earlier case that a failed retry of its activation deleted or rewrote |
| CaseOutcomes.CreationOrphansExactlyWhen | pkg/usecase/case.go:619-656 | a creation leaves actions without their case exactly when the deletion after a failed retry removes an earlier case that has some |
| CaseOutcomes.RefusedEditChangesNothing | pkg/usecase/case.go:1003-1909 | any other call that is refused, its writes acknowledged or lost, leaves every stored case as it was |
| CaseOutcomes.UpdateReadsBack | pkg/usecase/case.go:1003-1096 | after an update its caller reads the whole record back, each given field as given and everything else as before; no other record changes |
| CaseOutcomes.EveryAnswerIsStored | pkg/usecase/case.go:602-2224 | whatever the operation, a record handed out is the stored one, or for a removal the one removed |
| CaseOutcomes.DraftsAreStored | pkg/usecase/case.go:749-858 | a new draft is the only change and holds its input with the validated field values; a refused one changes nothing unless its write was applied but reported as failed |
| CaseOutcomes.OverlappingUpdateAgreesExactlyWhen | pkg/usecase/case.go:1003-1220 | an update overwrites assignments committed since it loaded the record; after any later transactions, what was announced about a user agrees with what is stored exactly when those in between left that user as loaded, or a later stored one asks for the opposite of what was loaded |
| Assignees.ReplayCatchesUp | pkg/usecase/case.go:1105-1253 | announcements replayed from any other set say the stored thing about a user from the first stored change of that user on, and until then what that set said |
| CaseOutcomes.SubmitKeepsContent | pkg/usecase/case.go:1984-2156 | a promoted case holds everything the submitted draft held |
| CaseOutcomes.CreatedCaseHoldsItsInput | pkg/usecase/case.go:780-858 | a new case holds its texts, key and validated fields; its assignees and test flag exactly when it goes by the channel route or there were none |
| CaseOutcomes.CreatorReadsBackExactlyWhen | pkg/usecase/case.go:879-978 | its creator reads a new case in full exactly when it is public or the member sync listed the creator |
| CaseReads.CoerceHolds | pkg/usecase/case.go:400-415 | a typed list is read as it is, a raw list as its strings in order, repeats kept, each at its place, and any other value as nothing |
| Text.ParseIntIs | pkg/usecase/case.go:297-341 | the texts that are case numbers are exactly the decimal int64s, with or without a sign |
| CaseReads.CaseRefIds | pkg/usecase/case.go:297-341 | the ids a reference value names, or an error exactly when it has the wrong type or a text that is no case number |
| CaseReads.LastDefinitionIsTarget | pkg/usecase/case.go:193-220 | a reference field points into the workspace of its own definition |
| CaseReads.UndefinedHasNoTarget | pkg/usecase/case.go:193-220 | a field without a definition points nowhere |
| CaseReads.VerifyCaseRefsExist | pkg/usecase/case.go:193-292 | fetches each reference workspace at most once and agrees with the pointwise check: an error for a malformed value or a failed lookup that is needed, otherwise exactly the references that are missing, private or drafts |
| CaseReads.FetchEach | pkg/usecase/case.go:252-265 | one batch lookup a workspace, each holding what exists among the ids asked for |
| CaseReads.GetCases | pkg/usecase/case.go:1396-1424 | the batch is GetCase mapped over the ids, not-found answers dropped, order and duplicates kept |
| CaseReads.ListingSplits | pkg/usecase/case.go:1396-1424 | one batch or two give the same list |
| CaseReads.ListingKeepsSecrets | pkg/usecase/case.go:1363-1385 | another member's private draft is never listed, and a private case is listed with its content to its channel members only |
| CaseReads.FilterByParentAccess | pkg/usecase/action.go:717-755 | keeps exactly the actions whose parent exists and admits the caller, in order; fails exactly when there are actions to look up and the lookup fails |
| CaseReads.ListingsAgreeExactlyWhen | pkg/usecase/action.go:717-777 | the filtered listing and GetActionsByCase agree on one case's actions exactly under the stated conditions on the two lookups and the parent |
| JobRuns.NewerIsTotal | pkg/usecase/job_run.go:173-181 | the order by start time and run id is strict and total |
| JobRuns.StartAt | pkg/usecase/job_run.go:183-204 | the scan starts exactly at the first log strictly after the cursor, present or not |
| JobRuns.CollectLogs | pkg/usecase/job_run.go:226-257 | every job's list is collected once, whatever the order of answers; one failure fails the call |
| JobRuns.ListLogsByCase | pkg/usecase/job_run.go:131-221 | each error case, a missing case apart from a denied one; otherwise the newest logs after the cursor, with a next cursor exactly when more remain |
| JobRuns.CleanCutsGiveTheFirstPage | pkg/usecase/job_run.go:144-150 | for every page size up to 100 and any jobs, the first page over the lists cut at 100 is the newest logs of the complete histories, when each cut respects the full order |
| JobRuns.FirstPageIsNewestExactlyWhen | pkg/usecase/job_run.go:144-150 | List orders by start time only; the first page is right for every answer it may give exactly when each of its logs shares its start time with few enough others of its job to fit in the list |
| JobRuns.InMemoryListIsAnyList | pkg/repository/memory/job_run.go:305-325 | the answers the in-memory List may give, a stable sort by start time of whatever order the map yields, are exactly those its contract allows |
| JobRuns.FirestorePageIsNewest | pkg/repository/firestore/job_run.go:395-423 | with ties ordered by run id, as Firestore orders documents that tie, the first page is always the newest |
| JobRuns.CrowdedLogSpoils | pkg/usecase/job_run.go:226-257 | for a log that does not fit, an answer of List that makes the first page wrong |
| JobRuns.WalkNeverRepeats | pkg/usecase/job_run.go:176-220 | following cursors while logs come and go never shows a log twice nor goes back up the order |
| JobRuns.WalkMissesNothing | pkg/usecase/job_run.go:176-220 | a log that stays collected during a finished walk is shown |
| JobRuns.WalkShowsEverythingOnce | pkg/usecase/job_run.go:173-219 | over an unchanged store a finished walk shows the merged list itself, each log once, for any mix of page sizes |
| JobRuns.WalkEnds | pkg/usecase/job_run.go:206-220 | such a walk ends |
| JobRuns.WalkReachesEveryLogExactlyWhen | pkg/usecase/job_run.go:223-257 | paging reaches every log of a case exactly when no job has more than 100 |
| NotificationSlots.Coordinator.EnqueueChannelLine | pkg/usecase/notification_slot.go:101-138 | sends exactly one message, the event handed in, exactly when the slots can be read and Slack takes it: an update of the live slot's message or a new one; while no call made the store forget a message, a fresh post comes at least a slot after the one before it; an update leaves the end, start and message of the slot; while everything that reached Slack was saved or its slot dropped, the entries are the latest ones sent |
| NotificationSlots.Coordinator.LookupExistingPermalink | pkg/usecase/notification_slot.go:144-154 | the first permalink the slot already resolved for the action, if any |
| NotificationSlots.CallSendsTheEvent | pkg/usecase/notification_slot.go:101-219 | the message sent tells the event: its timestamp, trimmed title and body, with the first permalink the live slot knows for it or else Slack's answer; a new slot holds the new message from then on |
| NotificationSlots.FreshPostsAreSpaced | pkg/usecase/notification_slot.go:101-138 | the fresh posts of a channel that reach Slack, acknowledged or not, are at least a slot apart in every run in which no call makes the store forget a message, even if the clock runs backwards |
| NotificationSlots.ForgettingPostsEarly | pkg/usecase/notification_slot.go:172-219 | after a call that does (a fresh post that reached Slack and reported an error or was not saved, or an update reported as failed whose slot is deleted) the next event posts too early |
| NotificationSlots.WindowHoldsFewPosts | pkg/usecase/notification_slot.go:172-196 | a window of length T holds at most T / slotDuration + 1 fresh posts that reach Slack |
| NotificationSlots.UpdatesNeverExtend | pkg/usecase/notification_slot.go:198-219 | no call moves the end, the start or the message of a slot that lives on |
| NotificationSlots.EntriesAreTheLatest | pkg/usecase/notification_slot.go:198-206 | the stored entries are always the last min(n, 200) of the n events sent for the slot, in order |
| SlotRendering.GroupSlotEntries | pkg/usecase/notification_slot.go:234-264 | one bucket a key with its lines in order and its last non-empty title and permalink; keys in order of first appearance |
| SlotRendering.BucketsAreByMessage | pkg/usecase/notification_slot.go:234-264 | two events share a bucket exactly when they are of the same message, or of none |
| SlotRendering.OrderFollowsFirstAppearance | pkg/usecase/notification_slot.go:234-264 | the keys are exactly those that appear, ordered by where they first appear |
| SlotRendering.GroupingLosesNothing | pkg/usecase/notification_slot.go:234-264 | grouping is a partition: the groups hold as many bodies as there are events |
| SlotRendering.BuildSlotBlocks | pkg/usecase/notification_slot.go:275-293 | one block for each group shown, at most 50, each a piece of the end of its own group's text of at most 2900 bytes, and none empty when the events have bodies |
| SlotRendering.LatestGroupsAreShown | pkg/usecase/notification_slot.go:275-282 | the groups shown are those that first appeared last |
| SlotRendering.ClampSlotGroupText | pkg/usecase/notification_slot.go:298-314 | the block shows the text from the specified cut on |
| SlotRendering.BlockIsBoundedWholeLines | pkg/usecase/notification_slot.go:298-314 | at most 2900 bytes and never nothing; starts a line exactly when the last 2900 bytes break before their end or start a line, and drops nothing after the first of those breaks |
| NotificationSlots.ResolvedPermalinkIsReused | pkg/usecase/notification_slot.go:112-119 | once a slot holds an action's permalink Slack's answer makes no difference |
| SlotRendering.LinesEndTheText | pkg/usecase/notification_slot.go:316-330 | the lines end a group's text, under a title line when there is a title |
| SlotRendering.JoinKeepsOrder | pkg/usecase/notification_slot.go:316-330 | the lines of a group stay in order, a break between each two |
| SlotRendering.TitleLineIs | pkg/usecase/notification_slot.go:316-330 | the title line is the escaped title in bold, linked when its message is known |
| SlotRendering.TitleReadsBack | pkg/usecase/action.go:47-52 | an escaped title reads back, unless it holds a full-width pipe of its own |
| SlotRendering.EscapedTitleHasNoMarkup | pkg/usecase/action.go:47-52 | an escaped title holds neither angle bracket nor pipe |
| SlotRendering.GroupsHaveText | pkg/usecase/notification_slot.go:316-330 | a group of events with bodies renders to text |
| ActionUseCase.UseCase.CreateAction | pkg/usecase/action.go:182-257 | the exact condition of success; a new action holds what it was given, with the status asked for or the first one, is logged under the token's name, and is stored as handed out exactly unless its first message was posted and the timestamp lost; a refused call changes nothing exactly unless its write was applied but reported as failed |
| ActionUseCase.UseCase.PostSlackMessageToAction | pkg/usecase/action.go:274-312 | the exact condition of success; an action is posted once, the timestamp is stored strictly, and nothing else changes |
| ActionUseCase.UseCase.UpdateAction | pkg/usecase/action.go:351-477 | succeeds exactly for a caller the action's case admits, by the token or else by the Slack user, with a patch the workspace and the new case take and an acknowledged write; stores the patch, touches no other action and logs under the Slack user's name; a refused one, its write not applied, changes nothing |
| ActionUseCase.UseCase.ArchiveAction | pkg/usecase/action.go:486-506 | succeeds exactly for an active action whose case admits the caller, by the token or else by the Slack user; changes its archive state and update time alone, and logs that |
| ActionUseCase.UseCase.UnarchiveAction | pkg/usecase/action.go:554-573 | the same for an archived action and its restoring |
| ActionUseCase.UseCase.BulkArchiveActions | pkg/usecase/action.go:520-533 | finishes exactly when each action exists under a case that admits the caller and is archived or can be; a finished batch returns exactly the actions that were active and leaves every id archived; a stopped one has touched nothing else |
| ActionPromises.GatesAre | pkg/usecase/action.go:81-99 | a token decides the access, whoever the Slack user is; without one the Slack user does, where it is asked at all; a call with neither is the system's |
| ActionPromises.CreationIs | pkg/usecase/action.go:182-257 | when a creation succeeds, what it stores and what it logs |
| ActionPromises.PostingIs | pkg/usecase/action.go:274-312 | when a post succeeds and what it stores |
| ActionPromises.UpdateIs | pkg/usecase/action.go:351-477 | when an update succeeds, what it stores and under whose name it logs |
| ActionPromises.ArchivingIs | pkg/usecase/action.go:486-573 | when archiving and restoring succeed, what they store and what they log |
| ActionPromises.BatchFinishesExactlyWhen | pkg/usecase/action.go:520-533 | a batch finishes exactly when each of its actions exists under a case that admits the caller and is archived already, by an earlier entry, or by its own |
| ActionHistory.LogAgreesExactlyWhen | pkg/usecase/action.go:382-460 | a call keeps an action's event log in agreement with its record exactly when it hides no change: no applied write reported as failed, no lost event of a changed field |
| ActionHistory.LogTellsTheRecord | pkg/usecase/action.go:224-245 | over every run that hides nothing, replaying each log gives the stored title, status, assignee and archive state: creation first and once, changes that chain, archive events that alternate |
| ActionHistory.OnlyArchivingArchives | pkg/usecase/action.go:382-460 | nothing but archiving and unarchiving an action changes its archive state, whatever fails |
| ActionHistory.UpdateStoresExactlyThePatch | pkg/usecase/action.go:382-452 | an update stores the patch and nothing else; a pick of no known human keeps the assignee |
| ActionHistory.NewParentsAcceptActions | pkg/usecase/action.go:170-200 | an action is put only under a case that is not thread-bound at that moment |
| ActionHistory.BulkArchivesExactlyTheActive | pkg/usecase/action.go:508-533 | a finished batch leaves every id archived and returns exactly the actions that were active, each once; nothing outside the batch or already archived changes, even when it stops half-way |
| Text.ScanReadsNumber | pkg/usecase/action.go:1057-1078 | the number of an id is read past blanks and up to the first byte that is no digit, if it is an int64 |
| Text.ScanReadsNegative | pkg/usecase/action.go:1057-1078 | so is a negative one |
| Text.ScanFailsOnLineBreak | pkg/usecase/action.go:1057-1078 | a line break before it is an error |
| Text.TrimTakesOnlySpaces | pkg/usecase/notification_slot.go:125-131 | trimming takes spaces from the two ends and nothing else |
| WireIds.AssigneeBlockIdReadsBack | pkg/usecase/action.go:1053-1078 | the block id parses back for every workspace id, colons included, and every int64 action id |
| WireIds.AssigneeBlockIdIsInjective | pkg/usecase/action.go:1053-1055 | two actions never share a block id |
| WireIds.StatusValueReadsBackExactlyWhen | pkg/usecase/action.go:1089-1116 | the status value parses back exactly when the status is not empty and has no colon |
| WireIds.CaseThreadReadsBackExactlyWhen | pkg/usecase/slack_thread_create_question.go:33-43 | the case-thread value parses back exactly when the channel is not empty and has no colon and the timestamp is not empty |
| WireIds.ParsedThreadPrintsBack | pkg/usecase/slack_thread_create_question.go:37-43 | whatever parses was printed from its parts |
| AuthCache.AuthUseCase.CacheGet | pkg/usecase/auth_cache.go:40-53 | a fresh entry is handed out, a stale one dropped |
| AuthCache.AuthUseCase.ValidateTokenWithCache | pkg/usecase/auth_cache.go:68-114 | the call does what its separate steps do when nothing comes between them: it accepts exactly the token cached and fresh, or else the one read, with the right secret and unexpired, and caches, drops and purges as that says |
| AuthCache.ValidationIs | pkg/usecase/auth_cache.go:68-114 | what an undisturbed validation accepts, caches, drops and purges, from the entry cached or the token read |
| AuthCache.AuthUseCase.Logout | pkg/usecase/auth.go:287-293 | the same for Logout: the cache first, then the store |
| AuthCache.AcceptancesAreBacked | pkg/usecase/auth_cache.go:40-114 | over every interleaving of any instances and requests each observation is justified by those before it |
| AuthCache.AcceptanceFollowsWriteAndRead | pkg/usecase/auth_cache.go:40-114 | every acceptance lies within five minutes after a cache write of its own instance, which follows a GetToken of that instance that returned the token with the secret presented and before it expired |
| AuthCache.StalenessIsBoundedExactlyWhen | pkg/usecase/auth_cache.go:68-114 | once a token is deleted, no continuation accepts it on a clock reading more than five minutes later, exactly when no read of it is in flight |
| AuthCache.ReadInFlightOutlivesAnyBound | pkg/usecase/auth_cache.go:85-113 | a request that has read the token can accept it after any delay |
| AuthCache.FadingTokenIsRefused | pkg/usecase/auth_cache.go:40-53 | what is left of a deleted token is refused once its entries have run out |
| AuthCache.TokenIsEndedExactlyWhen | pkg/usecase/auth_cache.go:40-114 | once a token is out of the store, no continuation makes an instance accept it exactly when the instance has no live entry for it and none of its requests is past the store, or at a live entry, with the token unexpired |
| AuthCache.LogoutIsImmediateExactlyWhen | pkg/usecase/auth.go:287-293 | a logout that nothing interleaves with ends the token on its own instance at once exactly when no request of the instance may still accept it |
| AuthCache.LogoutRacesWithValidation | pkg/usecase/auth.go:287-293 | a validation between the two steps of a logout makes the same instance accept the token after the logout |
| AuthCache.RaceIsReached | pkg/usecase/auth.go:287-293 | that situation is reached from an empty system |
| QuestionForms.BuildQuestionBlocks | pkg/usecase/slack_mention_proposal_question.go:84-168 | the form's input blocks and their ids, then the Submit button |
| QuestionForms.FormIsAcceptableExactlyWhen | pkg/usecase/slack_thread_create_question.go:52-114 | the form's block ids are distinct exactly when the item ids are and none is another closed-list item's id followed by ":other" |
| QuestionForms.ParseDraftQuestionAnswers | pkg/usecase/slack_mention_proposal_question.go:247-302 | the answers by item id, empty ones left out |
| QuestionForms.ReadAnswer | pkg/usecase/slack_mention_proposal_question.go:253-297 | one item's answer from its own blocks |
| QuestionForms.MissingDraftQuestionItems | pkg/usecase/slack_mention_proposal_question.go:343-352 | the unanswered items in order |
| QuestionForms.NoCrossTalk | pkg/usecase/slack_mention_proposal_question.go:247-302 | each item is read back as it was filled in, whatever the others hold |
| QuestionForms.FormReadsBack | pkg/usecase/slack_mention_proposal_question.go:247-302 | filling in and parsing gives back each item's own answer and nothing else; blanks are absent |
| QuestionForms.NothingMissingExactlyWhen | pkg/usecase/slack_mention_proposal_question.go:343-352 | nothing is missing exactly when every item has a choice or a text with more than spaces |
| FormResume.EveryInterleavingIsSound | pkg/usecase/slack_thread_create_question.go:169-269 | over every interleaving of presses, posted forms, other turns and other writers of a session, each stored turn stays and keeps its key to itself, and a form's turn answers a form that was posted |
| FormResume.FormStartsAtMostOneTurn | pkg/usecase/agent/threadcase/durable.go:178-232 | so a form starts at most one turn, with any clearing lost and any steps interleaved |
| FormResume.TurnHasEveryAnswer | pkg/usecase/slack_thread_create_question.go:221-229 | and a turn with answers has one to every question of a form posted under its message |
| FormResume.ReportedTurnsExist | pkg/usecase/agent/threadcase/durable.go:178-232 | a press that reports a turn as started, now or before, has one, under any interleaving |
| FormResume.SpawnStartsExactlyWhen | pkg/usecase/agent/threadcase/durable.go:196-232 | whatever happened before it, a spawn leaves its message with a turn exactly when it had one or the thread is idle and the run is recorded |
| FormResume.OneTurnAtATime | pkg/agent/kernel/subject.go:14-32 | a thread runs one turn at a time: until one ends, any interleaving starts at most one, and none while one is open |
| FormResume.PressSays | pkg/usecase/slack_thread_create_question.go:169-269 | what the person who pressed is told, from the stored state and the outside answers; in particular nobody is told of a turn as started unless it is recorded |
| FormResume.PressIsARun | pkg/usecase/slack_thread_create_question.go:169-269 | a press left alone is one of the interleavings: its steps, from receipt to end, leave what the call leaves |
| FormResume.OthersAct | pkg/usecase/threadcase_durable.go:40-92 | a form asked, a case created, a session stored by another writer, a turn started and a turn ended between the steps of a press all take effect |
| FormResume.FormIsOverwrittenExactlyWhen | pkg/usecase/threadcase.go:379-382 | the whole session document a press stores back overwrites a form posted since it was loaded, with anything in between, exactly when the write is applied and the document did not hold that form |
| FormResume.KeysTellMessagesApart | pkg/agent/kernel/subject.go:36-45 | two messages have the same trigger key exactly when they are the same message, so no form is dropped as another one's repeat |
| FormResume.WantedIs | pkg/usecase/slack_thread_create_question.go:218-229 | the turn a press asks for: the form's thread and message, its answers, and as reporter the session's creator or else the presser; exactly when every question is answered |
| FormResume.PressStartsExactlyWhen | pkg/usecase/threadcase.go:335-407 | an undisturbed press of a complete form has started its turn by the end exactly when it had been started before or the runtime takes it |
| FormResume.AnswerIsLostExactlyWhen | pkg/usecase/slack_thread_create_question.go:239-268 | no turn has the answers and the form is no longer awaited exactly when the clearing was applied and the runtime did not take the turn |
| FormResume.SecondPress | pkg/usecase/slack_thread_create_question.go:206-252 | a second press reaches the spawn again exactly when the clearing was lost, and starts a turn then only if the first did not |
| FormResume.CompleteFormStartsItsTurn | pkg/usecase/slack_thread_create_question.go:169-269 | a completely filled form on an idle thread starts one turn with exactly the answers meant |
| FormResume.Sessions.PostThreadCreateQuestionForm | pkg/usecase/slack_thread_create_question.go:147-161 | the thread then waits on the posted form alone, and other threads are left as they were |
| FormResume.Sessions.HandleThreadCaseQuestionSubmit | pkg/usecase/slack_thread_create_question.go:169-269 | the call does what its steps do with nothing in between, adds at most the one turn its form asks for, and leaves every message with at most one turn |
| ImportPreview.CollectSlackUserIds | pkg/usecase/import.go:496-541 | every user id the file holds in an assignee list or in a field the batch reads as a user field |
| ImportPreview.ResolveSlackUsers | pkg/usecase/import.go:548-578 | the collected ids the store knows; all of them when the lookup fails |
| ImportPreview.NormalizeCase | pkg/usecase/import.go:399-449 | one issue at each place of a case whose user is not known |
| ImportPreview.Preview | pkg/usecase/import.go:301-314 | the issues of the whole file; with an admitted schema, exactly the unknown ids where they stand |
| ImportPreview.PreviewIsPointwiseExactlyWhen | pkg/usecase/import.go:301-314 | as a function of any field list: unknown ids are reported at exactly the places where they stand and are absent from the store, and none on a failed lookup, exactly when no field id carries both user types |
| ImportPreview.ValidateFieldIds | pkg/cli/config/config.go:420-436 | a schema is admitted exactly when no field id is repeated |
| ImportPreview.LoadedSchemaIsPointwise | pkg/usecase/import.go:301-314 | with such a schema the preview reports exactly the unknown ids at the places where they stand |
| ImportExecute.ImportUseCase.ExecuteImport | pkg/usecase/import.go:169-268 | only its creator runs a session, and only a pending one without errors and with an unchanged schema; any other call says why and changes nothing but the error mark of a stale session; a run records the drafts it stored, counts its failures, is Applied exactly when every row became one, and can be repeated exactly when its final write was lost |
| ImportExecute.ImportUseCase.RunSnapshot | pkg/usecase/import.go:206-250 | every row is tried, whatever became of the ones before it |
| ImportExecute.ExecutionIs | pkg/usecase/import.go:169-268 | what Execute answers and leaves stored, from the session, the caller and the schema hash |
| ImportExecute.RecordedDraftsAreStored | pkg/usecase/import.go:206-250 | a row becomes a draft exactly when it goes through; every draft the session records is the importer's own, stored as its row said, private when the row is, with the row's validated field values, under its own id, and nothing stored before is touched |
| ImportExecute.EveryDraftIsRecordedExactlyWhen | pkg/usecase/import.go:206-250 | the session records every draft the import stored exactly when no row's write was applied but reported as failed |
| ImportExecute.RunsAgainExactlyWhen | pkg/usecase/import.go:169-268 | a session can be executed again exactly when the first run's final write was lost |
| ImportExecute.AllCreatedExactlyWhen | pkg/usecase/import.go:252-260 | a run counts no failure exactly when every row became a draft |

## Left out

- Slack transport, Block Kit layout, i18n texts and templates: a message is its identity and the text or block ids a property needs.
- The case operations run one after another; on one case, only assignment transactions interleave with each other and with an update.
- One clock reading serves a whole call, except in the token cache, where every step reads the clock.
- Where several cases match a request key or a thread, the lookup answers one of them; the model fixes which. The invariants show that there is at most one.
- Invitations, bookmarks, welcome and thread-anchor messages, which cannot fail the call they belong to.
- UpdateAgentSettings, ListCases and the reference pickers, which would add only plain reads and writes.
- CaseUseCase.UseCase.DeleteCase: does not model an action created while its case is being deleted.
- The field validator is an answer of the outside world: it accepts with enriched values or rejects.
- verifyUsersExist is an answer of the outside world in the case operations; the same batch check is proved for the import preview.
- JobRuns: the cursor text is an injective encoding of start time and run id (section 5 of RFC 4648 around JSON); run ids are not empty, as the stored logs guarantee, so that every cursor handed out decodes.
- NotificationSlots: two events that load the same slot before either saves it, which the code accepts as a lost line.
- SlotRendering: characters stand for bytes.
- Actions: refreshing the Slack message and the thread notification, which change nothing that is stored; the deletion of actions, which belongs to CaseUseCase.UseCase.DeleteCase.
- AuthCache: the store is a map keyed by token id; token ids are never reused.
- FormResume: the planner turn itself. The run store (agentkit, which is not part of this model) answers a spawn in one step, a known key before a busy subject, as the comment at pkg/agent/kernel/subject.go:40-42 says; a thread has one session, so the thread stands for the subject.
- The open-mode question form has no single-use guard of its own, so no bound is stated for it.
- FormResume.AnswerIsLostExactlyWhen: speaks of undisturbed presses; for interleaved ones FormResume.ReportedTurnsExist and FormResume.SpawnStartsExactlyWhen say when a turn is there.
- ImportPreview: title, required-field and validator issues, which each come from one branch; fieldSchemaHash, since SHA-256 is left uninterpreted.
- ImportExecute: attaching the stale-schema issues one by one; they count as one error.
- OAuth and JWT handling, the LLM agents, embeddings, HTTP and the frontend.
