# Verified model of the sync client

A local-first client keeps its durable state in a database and its notes in ordinary files. This project models the parts of
that client whose correctness is a matter of whole runs, and proves what they promise: the outbox and the inbox of the sync
coordinator, the capture of local edits, the tree rewrites of conflict recovery, the preflight of remote plans, the matching
of folder identities, and the file protocols that survive a crash.

Each database transaction is one atomic method over maps and sequences; each filesystem call is one atomic step, and a crash or
another process may come between any two. What a method does is tied to a function of the old state, and the properties are
proved about those functions over every state and every run. Ids are natural numbers, so that new ones never run out; hashes are
byte strings; the collision key of a path component is an arbitrary function.

| files | what they model |
|---|---|
| naming, sorting | ids, hashes, portable names, path order; the library sort as a stable function |
| outbox, outbox_chain, outbox_enqueue, outbox_batch, outbox_progress, outbox_live, outbox_runs, outbox_store, outbox_drain, outbox_extend, outbox_retire, outbox_replace | queued operations, their dependency graph and projected revisions; batches, answers, supersession, the drain, retiring and replacing |
| inbox, inbox_safety, inbox_progress, inbox_store | the downloaded server log, ordered and ahead-of-order apply plans, the two cursors, baselines; what every run keeps, and that the client can always catch up |
| capture, capture_ops, capture_replay, capture_waits, capture_store | turning the difference of two scans into a batch of operations |
| blob_cleanup, blob_manifest, blob_tree | which staged bytes may be removed, and the manifests that protect them |
| preserve_delete, preserve_replay, preserve_theorem | the version 4 completion check of a folder preserve-delete, and the replay of what it accepts |
| recursive_recovery, recursive_walk, recursive_discovery, recursive_necessity, recursive_captured, recursive_replacement, recursive_tree, recursive_store | recovering a refused local folder with everything queued below it |
| divergent_plan, divergent_exact, divergent_planner, divergent_replacement, divergent_transaction, divergent_built, divergent_stale, divergent_late, divergent_disk, divergent_vault | recovering a folder moved differently here and on the server: the plan, its transaction and what that builds on the server, and the files, call by call |
| preflight, preflight_plan, preflight_accept | the virtual execution of a remote plan over objects and the path-owner table; which plans are accepted |
| folder_matching, folder_inference, folder_order | carrying folder identities from the old index to the folders on disk; the moves inferred from watcher hints; what depends on the order of a map |
| note_move, folder_move, subtree | moving a note, moving a folder, and verifying a whole directory against a manifest |

## Findings

The code is modelled as it is. Some promises do not hold of every input. For each, a lemma or method stands at an input or a run
that fails, and an equivalence says when the promise holds.

| promise | fails on | holds exactly when |
|---|---|---|
| every queue stays a chain from its baseline | `OutboxBatch.TwoCreatesFork`: an accepted batch that creates one folder twice | the batch creates no object twice and no create names a queued operation of its own object (`OutboxBatch.BatchKeepsIff`, stores without conflicts) |
| nobody waits for a superseded operation | `OutboxLive.NamesSuperseded`: an accepted batch that names a superseded operation as a dependency; only existence is checked | no operation of the batch that is not dropped waits for a row that was superseded before, or that something earlier in the batch takes: a pending row of its object that nothing names (`OutboxLive.BatchStrandsIff`) |
| what the completion check of a preserve-delete accepts can be replayed | `PreserveTheorem.SelfPairAccepted`: a folder whose old and new id are the same, which the check never compares | no folder is paired with itself (`PreserveTheorem.ReplayableIff`); the decoding of the answer and the insertion guard of the clones turn away exactly the others, so whatever is sealed can be replayed (`PreserveTheorem.SealedIff`) |
| the path-owner table stays the inverse of the portable paths | `PreflightPlan.IndexedCreate`: an accepted create of a folder that is indexed under another portable path | the folder a step creates is new or stays on its portable path (`PreflightPlan.PreflightFolder`) |
| the folder match does not depend on map order | `FolderOrder.OrderDecides`: a folder and a folder in it, each with a verified move | every path on disk is settled, which is read off the moves and the old folders they apply to (`FolderOrder.MatchSettledIff`); a single verified move, all the callers pass, settles every path (`FolderOrder.AgreedSettled`) |
| rerunning a note move finishes it | `NoteMove.DieTwice`: a failed link, a crash inside the restore, a crash in the rerun; two staged copies remain and every later run reports an ambiguity | a quiet run succeeds if and only if the bytes are at the source and the destination is free, or the source is gone and exactly one staged copy is there with the destination free or equal (`NoteMove.Volume.MoveExpected`) |
| rerunning the recovery of a diverged folder ends | `DivergentVault.CutShort`: one fault between the two renames of the folder, or between the stage directory and its marker; no later run looks for what it left (`DivergentVault.Vault.RerunStuck`) | it was not stuck to begin with, and no fault struck that leaves the folder hidden, the stage without its marker, a hidden file behind, or a note without its name (`DivergentVault.Vault.RecoverUntilDone`); no original is lost either way |
| a folder that must be empty to be moved arrives empty | `FolderMove.ArrivesUnseen`: somebody else brings the full folder to the destination after its source was not found; the code then reports success without looking | the folder, its source or its destination has a name when the move starts (`FolderMove.Volume.MoveExpected`) |
| whatever changed on disk is captured | `CaptureStore.MovesIntoNew`: a move into a folder created in the same scan; only creates look at the creates of the batch | everything the batch refers to is known and can be staged (`CaptureStore.Derive`), and an object both moved and changed has two revisions left (`CaptureStore.CaptureSnapshot`) |
| a captured batch turns the projected old snapshot into the new one | `CaptureStore.ComesBack`: a folder back on disk while its delete is queued; the queued move has nothing to move | what is followed, and every folder something is put into, still exists in the projection (`CaptureStore.Derive`) |
| ending a divergent move strands nobody | `DivergentLate.LaterLeftBehind`: an operation queued since the plan was made, waiting for one the plan retires | no such operation is queued for an object the transaction does not create (`DivergentStale.StaleTransaction`) |

## Model

| member | source | states |
|---|---|---|
| PreserveDelete.ValidateCompletion | client/internal/clientsync/preserve_delete.go:267-349 | accepts exactly the descriptors whose sizes and cursor span fit, whose clones come parents first with one fresh cursor each and a delete after that of everything below, and whose notes are ordered by parent and id |
| PreserveDelete.CheckClone | client/internal/clientsync/preserve_delete.go:294-315 | against the tables built so far, accepts exactly the clones that name a new pair of ids, a known parent one level up, the next create cursor and an unused delete cursor below the parent's |
| PreserveDelete.ParentDelete | client/internal/clientsync/preserve_delete.go:301-307 | finds the delete cursor of the clone's parent, or that of the root |
| PreserveDelete.CheckNote | client/internal/clientsync/preserve_delete.go:332-346 | against the finished tables, accepts exactly the notes below a known folder with the next move cursor, consecutive revisions and ascending order |
| PreserveDelete.ValidateNotes | client/internal/clientsync/preserve_delete.go:330-348 | accepts exactly when every note of the list does |
| PreserveDelete.SourcesDistinct | client/internal/clientsync/preserve_delete.go:286-329 | two folders of an accepted descriptor share no id: not their old ids, not their new ids, nor an old with another's new |
| PreserveReplay.DeletesFillRange | client/internal/clientsync/preserve_delete.go:290-314 | clone deletes are only checked for range and distinctness, yet every cursor of their range is some clone's delete |
| PreserveReplay.CursorsUsedOnce | client/internal/clientsync/preserve_delete.go:268-346 | the cursors used by root create, clone creates, note moves, clone deletes and root delete are those from first to last, each exactly once |
| PreserveReplay.CreatedAt | client/internal/clientsync/preserve_delete.go:294-329 | the folders the creates add are the recovered ones, each with the parent and name its descriptor entry says |
| PreserveReplay.MovedAt | client/internal/clientsync/preserve_delete.go:330-348 | the notes rewritten by the first n moves are the first n of the list, each below its recovered parent at its target revision |
| PreserveTheorem.ReplayLegal | client/internal/clientsync/preserve_delete.go:267-349 | over the exact subtree the descriptor lists, every event is legal when its cursor comes up: parents exist at creates, folders are empty at deletes |
| PreserveTheorem.SelfPairBlocks | client/internal/clientsync/preserve_delete.go:294-315 | if some folder is paired with itself, some event is illegal |
| PreserveTheorem.ReplayableIff | client/internal/clientsync/preserve_delete.go:267-349 | an accepted descriptor of a folder's exact subtree can be replayed in cursor order if and only if no folder is paired with itself |
| PreserveTheorem.ReplayCopies | client/internal/clientsync/preserve_delete.go:186-349 | the replay ends with the old folders gone and a copy of the subtree below the recovered root: same shape, names, notes and bytes, everything outside untouched, nothing else added |
| PreserveTheorem.OnlyImages | client/internal/clientsync/preserve_delete.go:186-265 | every object after the replay is the image of one before |
| PreserveTheorem.ImageInjective | client/internal/clientsync/preserve_delete.go:286-329 | different objects have different images |
| PreserveTheorem.RootCopied | client/internal/clientsync/preserve_delete.go:186-265 | the recovered root is a folder with the recovered name at its new home |
| PreserveTheorem.SelfPairAccepted | client/internal/clientsync/preserve_delete.go:294-315 | a concrete descriptor of valid ids, with a tree it lists, that the check accepts although its replay fails; decoding and guard turn it away |
| PreserveTheorem.SealableIs | client/internal/localindex/migrations/037_recursive_preserve_delete.sql:104-121 | of the accepted descriptors, decoding and insertion guard let through exactly those that pair no folder with itself |
| PreserveTheorem.SealedIff | client/internal/localindex/migrations/037_recursive_preserve_delete.sql:104-121 | of the accepted descriptors of a folder's exact subtree, exactly those that can be replayed are sealed |
| OutboxStore.Store.Projection | client/internal/clientsync/store.go:602-637 | the revision an object reaches once its queue is sent, its last queued operation, and whether it is durable; fails exactly when the projection does not fit |
| OutboxStore.Store.Check | client/internal/clientsync/store.go:266-308 | which operations a batch accepts: valid shape, projection as base, last queued operation as dependency, creates only of objects without durable state |
| OutboxStore.Store.Coalesce | client/internal/clientsync/store.go:312-353 | supersedes exactly the pending operations of the object that nothing references and the new operation does not wait for |
| OutboxStore.Store.Enqueue | client/internal/clientsync/store.go:266-391 | queues the whole batch operation by operation, or changes nothing |
| OutboxStore.Store.CancelPending | client/internal/clientsync/store.go:255-265 | supersedes every pending operation of an object and nothing else |
| OutboxStore.Store.ListReady | client/internal/clientsync/store.go:404-445 | returns the oldest operation whose prerequisites are all accepted or met, and none only if there is none |
| OutboxStore.Store.MarkAttempted | client/internal/clientsync/store.go:447-464 | marks a ready operation as attempted, and refuses any other |
| OutboxStore.Store.RecordResult | client/internal/clientsync/store.go:465-534 | records an acceptance only at base plus one for a ready operation, raising the baseline and never lowering it; a rejection turns the operation into a conflict |
| OutboxStore.Store.RecordReplayMismatch | client/internal/clientsync/store.go:565-570 | marks a queued operation as mismatched |
| OutboxStore.Store.Descendants | client/internal/clientsync/conflicts.go:285-297 | finds exactly the operations that depend on the given one, directly or not |
| OutboxStore.Store.SupersedeQueuedDependents | client/internal/clientsync/conflicts.go:285-297 | supersedes exactly the queued operations that depend, directly or not, on the conflicting one |
| OutboxDrain.Drain | client/internal/app/sync_cycle.go:146-193 | the loop is the repetition of such rounds until one ends it or nothing is ready; each round takes an operation out of the queue; with no conflicts and an accepting server every operation is accepted in one round each and every object ends at its old projection, on both sides; it ends idle if every revision can be stored, something comes of every refusal or it can be left alone, and no folder delete is outdated; if every refusal gets its conflict copy, an idle end leaves nothing queued |
| OutboxDrain.SendOne | client/internal/app/sync_cycle.go:146-193 | one round: the outbox and the server after it, past a refusal too; it ends the loop if and only if an acceptance cannot be stored, nothing came of a refusal, a pull must come first, or a folder delete was outdated |
| OutboxDrain.OnlyRefusalEnds | client/internal/app/sync_cycle.go:176-192 | with storable revisions a round ends the loop only by a refusal nothing comes of, one that waits for a pull, or that of an outdated folder delete |
| OutboxDrain.NeverOutdated | client/internal/app/sync_cycle.go:185-191 | without queued folder deletes no round meets an outdated one |
| OutboxDrain.RefuseUnimpeded | client/internal/clientsync/conflicts.go:285-297 | once a refused operation's dependents are superseded, the others still wait only for queued operations |
| OutboxDrain.NothingLeft | client/internal/clientsync/store.go:404-445 | if queued operations wait only for queued ones and nothing is ready, nothing is queued |
| OutboxDrain.UnimpededIf | client/internal/clientsync/store.go:404-445 | without conflicts and without superseded prerequisites, queued operations wait only for queued ones |
| OutboxChain.ReadyIsFirst | client/internal/clientsync/store.go:404-445 | only the first queued operation of an object can be ready, and its base is the baseline |
| OutboxChain.AttemptKeeps | client/internal/clientsync/store.go:447-464 | an attempt keeps every queue a chain |
| OutboxChain.AcceptKeeps | client/internal/clientsync/store.go:465-534 | an acceptance moves the baseline and keeps every queue a chain from it |
| OutboxChain.RefuseKeeps | client/internal/clientsync/store.go:465-534 | after a rejection everything behind it is blocked, and other queues stay chains |
| OutboxChain.RecordKeeps | client/internal/clientsync/store.go:465-534 | whatever the answer, recording it keeps the queue invariant |
| OutboxChain.MismatchKeeps | client/internal/clientsync/store.go:565-570 | marking a replay mismatch keeps the queue invariant |
| OutboxEnqueue.SupersedeKeeps | client/internal/clientsync/conflicts.go:285-297 | superseding an operation's dependents keeps every queue a chain |
| OutboxEnqueue.AppendKeeps | client/internal/clientsync/store.go:358-389 | appending an operation that continues its object's chain keeps it a chain |
| OutboxEnqueue.FollowerCoalescesNothing | client/internal/clientsync/store.go:312-353 | an update, move or delete never supersedes a queued operation |
| OutboxEnqueue.EnqueueOneKeeps | client/internal/clientsync/store.go:266-391 | one accepted operation keeps the invariant when a create finds its queue empty |
| OutboxBatch.BatchKeeps | client/internal/clientsync/store.go:266-391 | an accepted batch in which creates stand alone keeps every queue a chain, conflicts or not |
| OutboxBatch.BatchKeepsIff | client/internal/clientsync/store.go:266-391 | without conflicts, an accepted batch keeps the chains if and only if it creates no object twice and no create names a queued operation of its own object |
| OutboxBatch.TwoCreatesFork | client/internal/clientsync/store.go:292-308 | a concrete accepted batch that leaves one object with two operations at base zero |
| OutboxProgress.StepStrands | client/internal/clientsync/store.go:312-353 | one accepted operation leaves somebody waiting for a superseded one if and only if it names one itself |
| OutboxLive.BatchOutcome | client/internal/clientsync/store.go:266-391 | what a running batch makes of the store, read off the store and the batch alone: which of its operations are dropped, which queued rows it supersedes, and that every other operation is queued |
| OutboxLive.BatchStrandsIff | client/internal/clientsync/store.go:312-391 | an accepted batch leaves nobody waiting for a superseded operation if and only if none of its operations that is not dropped waits for a row superseded before, or taken by something earlier in the batch |
| OutboxLive.NamesSuperseded | client/internal/clientsync/store.go:372-389 | a concrete accepted batch that leaves its operation waiting for a superseded one |
| OutboxProgress.FirstIsReady | client/internal/clientsync/store.go:404-445 | with no conflict and nobody stranded, the first queued operation is ready |
| OutboxProgress.RoundKeeps | client/internal/app/sync_cycle.go:146-193 | a round of the drain shortens the queue by one, keeps the server and the baselines in step and changes no projection |
| OutboxRuns.RunKeepsChains | client/internal/clientsync/store.go:266-534 | every run of batches, attempts, answers, mismatches and superseded dependents keeps every object's queue a chain from its baseline |
| OutboxRuns.ChainOfCleanObject | client/internal/clientsync/store.go:602-637 | for an object without a conflict the k-th queued operation has base baseline plus k and waits for all before it, and the projection is the revision after the last |
| OutboxRuns.RunStrandsNobody | client/internal/clientsync/conflicts.go:285-297 | no run leaves a queued operation waiting for a superseded one |
| OutboxRuns.RunNeverStalls | client/internal/clientsync/store.go:404-445 | after any run without conflicts something is ready while the queue is not empty |
| OutboxRuns.SupersedeUnblocks | client/internal/clientsync/conflicts.go:285-297 | superseding what waits for an object's only conflict gives the object a plain chain again |
| OutboxExtend.KeepCreate | client/internal/clientsync/store.go:292-308 | a create of an object that is not durable is accepted behind any accepted batch and supersedes nothing |
| OutboxExtend.KeepFollow | client/internal/clientsync/store.go:309-311 | the first operation that follows an object's projection is accepted behind any accepted batch and supersedes nothing |
| OutboxExtend.KeepSecond | client/internal/clientsync/store.go:309-311 | an update right behind the same note's move is accepted and supersedes nothing |
| OutboxExtend.RefusedBase | client/internal/clientsync/store.go:171-220 | an operation past the largest revision fails the whole batch |
| OutboxExtend.TameKeeps | client/internal/clientsync/store.go:266-391 | a batch that only extends the queue keeps every queue a chain and strands nobody |
| OutboxRetire.RetireKeeps | client/internal/clientsync/recursive_local_folder_recovery.go:560-579 | superseding whole queues keeps the other queues chains |
| OutboxRetire.RetireStrandsNobody | client/internal/clientsync/recursive_local_folder_recovery.go:560-579 | superseding operations with all their queued dependents strands nobody |
| OutboxReplace.ReplaceAll | client/internal/clientsync/store.go:292-354 | creates of different objects, each waiting for earlier ones only, are accepted exactly when each fits the outbox as it was before the batch |
| OutboxReplace.Untouched | client/internal/clientsync/store.go:312-354 | whatever is neither retired nor of a created object stays as it was |
| OutboxReplace.ReplaceStrandsIff | client/internal/clientsync/store.go:312-354 | retiring pending operations and creating objects in their place strands somebody exactly when a queued operation, not retired and of no created object, waits for a retired one |
| BlobCleanup.Stager.Cleanup | client/internal/clientsync/blob_cleanup.go:14-63 | removes exactly the staged files the query returns, leaves nothing to clean, and keeps every needed byte string |
| BlobCleanup.RemoveSafe | client/internal/clientsync/blob_cleanup.go:14-40 | removing what the query returned, with or without journalling it, takes nothing that is needed |
| BlobCleanup.CleanOne | client/internal/clientsync/blob_cleanup.go:42-63 | cleaning one byte string settles it and changes the verdict on no other |
| BlobCleanup.CleanableIff | client/internal/clientsync/blob_cleanup.go:14-40 | bytes may be removed if and only if nothing uses them and a row behind the last cleanup is done with them: accepted, superseded, or in a conflict whose copy is finished |
| BlobCleanup.AcceptedCleanable | client/internal/clientsync/blob_cleanup.go:14-40 | once an operation is accepted its bytes may be removed, unless something else uses them |
| BlobCleanup.StaysListed | client/internal/clientsync/blob_cleanup.go:14-63 | what a pass listed stays removable while other listed files go |
| BlobCleanup.PassSafe | client/internal/clientsync/blob_cleanup.go:14-63 | a pass that lists before it removes takes nothing that is needed, wherever it is cut off |
| BlobCleanup.PutFolderSafe | client/internal/clientsync/folder_create_conflicts.go:194-239 | superseding a note's update chain early loses no bytes, since the unfinished recovery protects them |
| BlobCleanup.RunSafe | client/internal/clientsync/blob_cleanup.go:14-63 | in every run, crashes included, the staged file exists for each queued note create or update and for each chain of an unfinished recovery |
| BlobManifest.PendingDirectNoteCreates | client/internal/clientsync/folder_create_conflicts.go:88-177 | collects every note queued directly below a folder with all its updates, each fit for the preparation and named with the bytes of its last update; fails only on a history that breaks off |
| BlobManifest.FollowUpdates | client/internal/clientsync/folder_create_conflicts.go:128-174 | follows a note's updates to the last one, or to where the history branches or goes on with anything but a pending update |
| BlobManifest.CompleteSafeIff | client/internal/clientsync/folder_create_conflicts.go:324-429 | completing a recovery leaves no needed bytes missing exactly when the final bytes of every member are staged |
| BlobManifest.CollectedFits | client/internal/localindex/migrations/023_folder_create_note_update_chain_recovery.sql:27-47 | what is collected meets the conditions of the preparation and of the insertion guard, which compares the bytes of each note with its last update |
| BlobTree.TreeKeepsBytes | client/internal/clientsync/recursive_local_folder_recovery.go:552-600 | replacing a validated tree is a step of such a run: every byte string its creates carry is carried by a pending row, and no needed bytes go missing |
| InboxStore.Store.IngestPullPage | client/internal/clientsync/inbox.go:78-138 | appends a page at the downloaded cursor or accepts an exact replay below it, and otherwise changes nothing |
| InboxStore.Store.CreateApplyPlan | client/internal/clientsync/store.go:772-843 | plans exactly the contiguous changes behind the confirmed cursor; a step at or below its object's projected revision starts out applied |
| InboxStore.Store.CreateInboxApplyPlan | client/internal/clientsync/inbox.go:320-376 | plans one waiting row ahead of order only if no earlier row of its object is open and it follows the baseline; cursors, baselines and other plans stay, and no second plan gets active |
| InboxStore.Store.BeginApplyPlan | client/internal/clientsync/store.go:884-951 | starts a prepared plan and marks its row as applying, unless the row is applied; no applied row is reopened, and cursors and baselines stay |
| InboxStore.Store.MarkApplyStepApplied | client/internal/clientsync/store.go:1225-1254 | marks one step of a started plan; no step loses its mark, and cursors and baselines stay |
| InboxStore.Store.CompleteApplyPlan | client/internal/clientsync/store.go:1256-1331 | a started plan at the confirmed cursor with every step applied ends done, the confirmed cursor at its end and each baseline the highest of the old one and its steps; one ahead of order ends done with its row applied, its baseline raised and the confirmed cursor past every applied row behind it; any other is left alone |
| InboxStore.Store.AdvanceConfirmedInboxCursor | client/internal/clientsync/inbox.go:635-678 | moves the confirmed cursor over applied rows only, and up to the first row that is not |
| InboxStore.Store.AbandonPreparedInboxPlan | client/internal/clientsync/inbox.go:455-487 | gives up a plan that was not started: its row goes on waiting, if at most one plan was active none is afterwards, and cursors and baselines stay |
| InboxStore.Store.RetryAbandonedInboxPlan | client/internal/clientsync/inbox.go:491-513 | takes an abandoned plan up again only while no plan is active, its row is waiting for the next revision, and nothing earlier or local is open for its object; cursors and baselines stay |
| InboxStore.Store.ReconcileInboxAppliedThroughConfirmed | client/internal/clientsync/inbox.go:518-592 | marks rows at or below the confirmed cursor applied, unless the rows have a gap |
| InboxSafety.IngestNeverFails | client/internal/clientsync/inbox.go:78-138 | a page of the server's log is always taken |
| InboxSafety.OrderedStepsFit | client/internal/clientsync/store.go:772-843 | the contiguity check of an ordered plan never fails on the server's log |
| InboxSafety.ReconcileNeverFails | client/internal/clientsync/inbox.go:518-592 | the reconciliation never finds a gap |
| InboxSafety.LearnPrefix | client/internal/clientsync/inbox.go:594-633 | applying a row whose object's earlier rows are applied keeps each object's applied rows a prefix of its log |
| InboxSafety.LearnOne | client/internal/clientsync/inbox.go:594-633 | applying such a row leaves the baseline at the newest revision known |
| InboxSafety.RemoteKeeps | client/internal/clientsync/inbox.go:78-138 | a change on the server, of another client or an own one whose answer is not recorded yet, keeps the client's invariant |
| InboxSafety.OwnKeeps | client/internal/clientsync/store.go:465-534 | recording the answer to an own operation, however late, keeps the client's invariant |
| InboxSafety.RunKeeps | client/internal/clientsync/inbox.go:78-678 | every run, stopped anywhere, with own answers recorded at once, late or after a crash, keeps a gapless copy of the log, confirmed at or below downloaded, each object's applied rows a prefix of its log, and each baseline at the newest revision applied or made here |
| InboxSafety.RunNeverLowers | client/internal/clientsync/inbox.go:594-633 | no run lowers a baseline |
| InboxSafety.AgreesWithInOrder | client/internal/app/sync_cycle.go:211-258 | once everything downloaded is confirmed, the baselines are those of applying the log in order |
| InboxProgress.CatchUp | client/internal/app/sync_cycle.go:211-258 | from any state a run can lead to, without an active plan, the client alone can download the rest of the log and confirm all of it |
| InboxProgress.ApplyAhead | client/internal/clientsync/inbox.go:320-376 | a waiting row about whose object nothing earlier or local is open can be planned, begun, marked and finished ahead of order: it ends applied, with its baseline raised |
| InboxProgress.RetryRestores | client/internal/clientsync/inbox.go:455-513 | given up before it was started, a plan leaves room for others; taken up again it is what it was |
| InboxProgress.Resume | client/internal/app/sync_cycle.go:76-92 | an active plan that starts at the confirmed cursor, or whose row is where it belongs, can be carried out |
| InboxProgress.AlwaysCatchesUp | client/internal/app/sync_cycle.go:211-258 | after that the client catches up, and every baseline is the one that applying the log in order gives |
| Preflight.AncestorOf | client/internal/app/sync_apply.go:1233-1242 | every prefix of an indexed path is the path of an object |
| Preflight.KeyHead | client/internal/app/sync_apply.go:1244-1250 | a path with the portable form of an object's path begins with the portable form of one of its ancestors |
| Preflight.TargetOwner | client/internal/app/sync_apply.go:724-728 | if anything indexed lies at or below the portable form of a free move target, the move keeps the folder on its portable path |
| Preflight.NewKeyFree | client/internal/app/sync_apply.go:852-868 | the new portable path of a member of a moved subtree belongs to nobody else, before or after |
| Preflight.RelocatedTree | client/internal/app/sync_apply.go:852-868 | rewriting every path of a subtree is, as a tree, the change of one parent and one name |
| PreflightPlan.PreflightNote | client/internal/app/sync_apply.go:288-633 | over an exact table, accepts exactly the note steps that fit the virtual objects, and updates them and the table as the step says |
| PreflightPlan.PreflightFolder | client/internal/app/sync_apply.go:708-884 | over sound tables, accepts exactly the folder steps that fit the virtual objects, and updates them as the step says; the table is exact afterwards if and only if the step creates no folder that is indexed under another portable path |
| PreflightPlan.IndexedCreate | client/internal/app/sync_apply.go:724-762 | a concrete accepted folder step after which the table is no longer exact |
| PreflightPlan.OwnersOf | client/internal/app/sync_apply.go:289-292 | filled in any order, the owner table is the exact inverse of the index if and only if no two indexed objects share a portable path |
| PreflightPlan.PreflightFolderMove | client/internal/app/sync_apply.go:763-870 | accepts exactly a move of a known folder to a free target outside itself, and keeps the table exact |
| PreflightPlan.PreflightFolderDelete | client/internal/app/sync_apply.go:763-884 | accepts exactly the delete of a known folder at its path with nothing below, and keeps the table exact |
| PreflightPlan.MoveSubtree | client/internal/app/sync_apply.go:852-868 | whatever order the map is walked in, the paths become those of the moved subtree and the table stays the exact inverse |
| PreflightPlan.RekeyOne | client/internal/app/sync_apply.go:858-867 | changing one member's path to one nobody has keeps the table an exact inverse |
| PreflightPlan.NoteSound | client/internal/app/sync_apply.go:288-633 | an accepted note step keeps the tables sound and makes the same change to the tree as the server did |
| PreflightPlan.FolderSound | client/internal/app/sync_apply.go:708-884 | an accepted folder step, whole-subtree moves included, keeps the tables sound and makes the same change to the tree as the server did |
| PreflightPlan.PlanStep | client/internal/app/sync_apply.go:236-643 | one accepted step carries the plan's invariant on |
| PreflightPlan.CreateKeepsTableIff | client/internal/app/sync_apply.go:729-762 | the table update of a folder create keeps the table an exact inverse if and only if the folder is new or stays on its portable path |
| PreflightPlan.PreflightNotePlan | client/internal/app/sync_apply.go:236-643 | over a well-formed index without shared portable paths, a plan that creates only new folders is accepted if and only if each change is allowed on what those before it lead to; then the tables are what all of them lead to, the owner table is the exact inverse of the portable paths, no two live objects share one, and the objects are the server's tree after the same changes; a refused plan is left at its first change that is not allowed |
| PreflightAccept.NoteStepAllowed | client/internal/app/sync_apply.go:288-633 | a note change the server's tree can make, to a portable name nothing else in its folder has, is allowed |
| PreflightAccept.FolderStepAllowed | client/internal/app/sync_apply.go:708-884 | so is a folder change: no move into itself, no delete of a folder that holds something |
| PreflightAccept.AcceptServerPlan | client/internal/app/sync_apply.go:236-643 | a plan of changes the server's tree can make one after another, with ids used once, is accepted whole, if the disk agrees and nothing in it echoes an own operation |
| NoteMove.Volume.MoveExpected | client/internal/repository/rooted_unix.go:299-353 | whatever others do and wherever it crashes, no step loses the bytes or replaces a destination; a quiet run succeeds exactly when the bytes are at the source with the destination free, or in the one staged copy with the destination free or equal |
| NoteMove.Volume.StageAt | client/internal/repository/rooted_unix.go:518-531 | gives the source a hidden name, losing no staged copy |
| NoteMove.Volume.RestoreAt | client/internal/repository/rooted_unix.go:533-540 | puts a staged file back unless the name is taken, and never replaces it |
| NoteMove.Volume.FindStagedMove | client/internal/repository/rooted_unix.go:365-390 | tells none, exactly one and several staged copies of the bytes apart |
| NoteMove.Volume.RecoverStagedMove | client/internal/repository/rooted_unix.go:392-422 | finishes the move from the one staged copy, exactly when the destination is free or already has the bytes |
| NoteMove.Volume.PublishStaged | client/internal/repository/rooted_unix.go:321-352 | publishes staged bytes without replacing, or puts them back |
| NoteMove.Volume.LinkAndDrop | client/internal/repository/rooted_unix.go:330-347 | links the destination without replacing and drops the staged name, keeping the bytes named throughout |
| NoteMove.NothingLost | client/internal/repository/rooted_unix.go:299-422 | at every point of a run the bytes are named by source, staging name or destination, and a destination once there stays what it was |
| NoteMove.RerunFinishes | client/internal/repository/rooted_unix.go:299-422 | from every state a crash can leave, exactly when a quiet rerun finishes |
| NoteMove.MoveAndRerun | client/internal/repository/rooted_unix.go:299-422 | after any crash and interference, a quiet rerun finishes the move if the source still has the bytes and the destination is free, or if the source is gone, a staged copy is left and the destination is free or already has the bytes; with neither source nor staged copy the destination has them |
| NoteMove.TwoStagedCopiesBlock | client/internal/repository/rooted_unix.go:365-390 | with two staged copies and no source no rerun succeeds, although the bytes are held |
| NoteMove.DieTwice | client/internal/repository/rooted_unix.go:299-353 | two runs from a clean start with the destination free end with two staged copies, no source and no destination: the link fails and the first client dies inside the restore, the second dies after staging |
| FolderMove.Volume.MoveExpected | client/internal/repository/folder_mutation_unix.go:29-111 | no call replaces a name or loses a directory; a quiet run arrives exactly when the directory is at the source or staged with the destination free, or already at the destination, and, in the form that demands it, is empty; a full one is then back at the source if nothing else is there; with interference too the emptiness holds at the end, unless neither the directory nor source nor destination had a name at the start |
| FolderMove.Volume.FindStagedFolder | client/internal/repository/folder_mutation_unix.go:184-209 | finds the staging name that holds the directory, and misses none |
| FolderMove.Volume.StageFolder | client/internal/repository/folder_mutation_unix.go:47-68 | continues from the staged directory or stages the source |
| FolderMove.Volume.PublishStaged | client/internal/repository/folder_mutation_unix.go:69-110 | publishes the staged directory exactly when it is the bound one and the destination is free |
| FolderMove.Volume.KeepIfEmpty | client/internal/repository/folder_mutation_unix.go:99-109 | a directory that had to be empty stays exactly if it is; a full one is taken back, through the same places, and ends at the source if that is free |
| FolderMove.OnePlace | client/internal/repository/folder_mutation_unix.go:29-111 | at every point of a run the bound directory has exactly one name: source, staging name or destination |
| FolderMove.MoveAndRerun | client/internal/repository/folder_mutation_unix.go:29-111 | from every crash point, and after success, a rerun ends at the destination if that was free or already its place |
| FolderMove.ArrivesUnseen | client/internal/repository/folder_mutation_unix.go:57-63 | a run that reports a full directory as moved, although it had to be empty |
| Subtree.VerifySubtreeExpected | client/internal/repository/subtree_unix.go:20-86 | accepts exactly a well-formed manifest that equals the set of all descendants on disk, with kind, folder identity and file hash, under the bound root and within the size bound |
| Subtree.CheckManifest | client/internal/repository/subtree_unix.go:24-68 | accepts exactly the well-formed manifests, and builds the table of their direct children |
| Subtree.VerifyDirectory | client/internal/repository/subtree_unix.go:88-159 | walks one directory against that table, recursively |
| Subtree.LevelIff | client/internal/repository/subtree_unix.go:88-159 | the walk of a directory succeeds if and only if what is on disk below it is what is listed below it |
| Subtree.ChildIff | client/internal/repository/subtree_unix.go:104-154 | checking one child succeeds if and only if it and everything on disk below it is what is listed |
| FolderMatching.ForceMoves | client/internal/reconcile/run.go:279-293 | the forced targets are those that going through the verified moves in some order gives, over the inferred ones |
| FolderMatching.BuildEdges | client/internal/reconcile/run.go:306-349 | both tables hold exactly the edges: forced ones, or equal device and inode with an equal path or equal structure |
| FolderMatching.Assign | client/internal/reconcile/run.go:351-372 | an identity is carried over exactly the edges that are alone at both ends |
| FolderMatching.MatchFolders | client/internal/reconcile/run.go:258-372 | the whole match, for any order of map iteration: refused exactly if what the server vouches for fits neither index nor disk; otherwise, for the forced targets of some order, an identity is carried exactly over the edges alone at both ends |
| FolderMatching.CarriedOnce | client/internal/reconcile/run.go:351-372 | no identity is carried to two paths |
| FolderMatching.AfterForced | client/internal/reconcile/run.go:279-293 | whatever the order, what is forced is what one of the moves that apply says, or was inferred |
| FolderInference.NewRoots | client/internal/reconcile/run.go:545-565 | finds exactly the folders that are new and lie in none that is new |
| FolderInference.InferMoves | client/internal/reconcile/run.go:538-600 | hint by hint, shallow ones first, a hint takes a new root exactly if it is the only unused one its structure allows, and whatever was below follows where it exists; no two old folders are inferred to be at one place |
| FolderInference.ReconcileFolders | client/internal/reconcile/run.go:258-372 | inference and match together: the moves inferred hint by hint are what the match goes on, refused exactly if what the server vouches for fits neither index nor disk, otherwise a result of the match for some order |
| FolderOrder.HeldClaims | client/internal/reconcile/run.go:280-293 | a path that some folders hold is taken by one of them in every order |
| FolderOrder.MatchSettledIff | client/internal/reconcile/run.go:258-372 | the identities carried are the same for all orders of the verified moves if and only if every path on disk is settled |
| FolderOrder.AgreedSettled | client/internal/app/sync_apply.go:1078 | verified moves that agree wherever more than one applies settle every path on disk, and so does a single one |
| FolderOrder.OrderDecides | client/internal/reconcile/run.go:280-293 | a concrete verified input for which the order of the moves decides who is carried where |
| RecursiveCaptured.Discover | client/internal/clientsync/recursive_local_folder_recovery.go:64-232 | captures the queued graph below a refused folder completely and in order; reports nothing exactly when no folder is queued below, and refuses only when no manifest would validate |
| RecursiveDiscovery.Walker.WalkFolder | client/internal/clientsync/recursive_local_folder_recovery.go:85-202 | gathers everything queued below a folder, and fails only if no manifest would validate; ends because dependencies point to earlier operations |
| RecursiveDiscovery.Walker.GatherChild | client/internal/clientsync/recursive_local_folder_recovery.go:114-200 | gathers one child with everything below it |
| RecursiveDiscovery.Walker.GatherFolder | client/internal/clientsync/recursive_local_folder_recovery.go:136-145 | gathers a folder and everything below it |
| RecursiveDiscovery.Walker.CollectChain | client/internal/clientsync/recursive_local_folder_recovery.go:146-199 | collects a note's whole chain of updates, or there is no valid manifest |
| RecursiveNecessity.ChildRequired | client/internal/clientsync/recursive_local_folder_recovery.go:454-550 | what waits for a walked folder is, in every valid manifest, the create of a member below it |
| RecursiveNecessity.DependentIsNext | client/internal/clientsync/recursive_local_folder_recovery.go:454-550 | what waits for an operation of a note is, in every valid manifest, the note's next update |
| RecursiveNecessity.ChildFails | client/internal/clientsync/recursive_local_folder_recovery.go:114-125 | a dependent that the walk rejects rules out every manifest |
| RecursiveNecessity.DuplicateFails | client/internal/clientsync/recursive_local_folder_recovery.go:122-126 | an object created twice below the refused folder rules out every manifest |
| RecursiveNecessity.ChainFails | client/internal/clientsync/recursive_local_folder_recovery.go:152-198 | a chain that branches or goes on with anything but a pending update rules out every manifest |
| RecursiveNecessity.HistoryFails | client/internal/clientsync/recursive_local_folder_recovery.go:206-221 | a member with other operations, or with a baseline, rules out every manifest |
| RecursiveCaptured.WalkDiscovered | client/internal/clientsync/recursive_local_folder_recovery.go:203-229 | a finished walk, sorted, is a complete capture |
| RecursiveCaptured.FilledDiscovered | client/internal/clientsync/recursive_local_folder_recovery.go:234-278 | filling in folder identities keeps everything discovery promises |
| RecursiveCaptured.CapturedValidates | client/internal/clientsync/recursive_local_folder_recovery.go:407-550 | in an unchanged outbox a captured manifest with identities filled in and paths within limits passes shape and topology validation, parents first |
| RecursiveCaptured.CapturedReplaced | client/internal/clientsync/recursive_local_folder_recovery.go:552-600 | in an unchanged outbox the transaction that retires a captured manifest and queues its replacements is accepted in full, keeps every queue a chain and strands nobody |
| RecursiveStore.ValidateShape | client/internal/clientsync/recursive_local_folder_recovery.go:423-452 | accepts exactly the well-shaped manifests |
| RecursiveStore.TakeOperations | client/internal/clientsync/recursive_local_folder_recovery.go:431-437 | accepts a member exactly if its operations are new |
| RecursiveStore.ValidateMember | client/internal/clientsync/recursive_local_folder_recovery.go:483-529 | accepts exactly the members that still match the outbox |
| RecursiveStore.ValidateTopology | client/internal/clientsync/recursive_local_folder_recovery.go:454-550 | accepts exactly the manifests that still match the outbox with nothing else waiting for their operations |
| RecursiveStore.RetireRow | client/internal/clientsync/recursive_local_folder_recovery.go:564-578 | supersedes the pending row exactly if it is still the recorded one |
| RecursiveStore.RetireMember | client/internal/clientsync/recursive_local_folder_recovery.go:560-579 | supersedes exactly the operations of one member |
| RecursiveStore.BuildReplacements | client/internal/clientsync/recursive_local_folder_recovery.go:580-599 | builds one create per member below its parent's new operation, exactly if parents come first |
| RecursiveStore.Replace | client/internal/clientsync/recursive_local_folder_recovery.go:552-600 | retires and rebuilds a manifest exactly if it validates parents first, and otherwise changes nothing |
| RecursiveReplacement.OwnRows | client/internal/clientsync/recursive_local_folder_recovery.go:454-550 | the outbox holds nothing about a member of a validated manifest but its create and its updates |
| RecursiveReplacement.RetiresWhole | client/internal/clientsync/recursive_local_folder_recovery.go:560-579 | a validated manifest covers whole queues and all their dependents |
| RecursiveReplacement.DependencyQueued | client/internal/clientsync/recursive_local_folder_recovery.go:583-597 | each replacement waits for an operation queued right before it |
| RecursiveReplacement.ReplacementAccepted | client/internal/clientsync/recursive_local_folder_recovery.go:552-600 | after retiring, the replacements are accepted one by one |
| RecursiveReplacement.TransactionKeeps | client/internal/clientsync/recursive_local_folder_recovery.go:552-600 | the transaction is accepted in full, keeps every queue a chain and strands nobody |
| RecursiveTree.PlaySent | client/internal/clientsync/recursive_local_folder_recovery.go:552-600 | sent in any order their dependencies allow, the queued operations can all be played |
| RecursiveTree.QueueBuilds | client/internal/clientsync/recursive_local_folder_recovery.go:454-550 | the queued operations, played in any order their dependencies allow, build the manifest's tree below the refused folder, with the last bytes of every note |
| RecursiveTree.QueueOrder | client/internal/clientsync/recursive_local_folder_recovery.go:454-550 | the sequence order of the queued operations is an order their dependencies allow, and covers them all |
| RecursiveTree.ReplacementsBuild | client/internal/clientsync/recursive_local_folder_recovery.go:552-600 | the replacements build the manifest's tree below the recovered root |
| RecursiveTree.SameTree | client/internal/clientsync/recursive_local_folder_recovery.go:552-600 | both trees are the same: each object gets the same place, name, kind and final hash, with the recovered root for the refused folder |
| CaptureStore.Classify | client/internal/reconcile/sync_capture.go:61-97 | sorts the current objects into new ones and followed ones, exactly if every projection can be read |
| CaptureStore.Vanished | client/internal/reconcile/sync_capture.go:110-129 | sorts the vanished objects into those to delete and those with nothing queued |
| CaptureStore.CreateDependency | client/internal/reconcile/sync_capture.go:145-161 | finds the operation a new object waits for: the create of its folder if that is in the batch, otherwise the last one queued for the folder; succeeds exactly if the folder is known to the server or new in this batch |
| CaptureWaits.WaitingCreate | client/internal/reconcile/sync_capture.go:144-161 | a create waits for the create of its folder if that comes earlier in the batch, otherwise for the last operation queued for the folder, and for nothing else |
| CaptureWaits.WaitingChange | client/internal/reconcile/sync_capture.go:186-227 | a move waits for the last operations queued for the object and for the folder it goes to, an update for the last one queued for the note or its own move |
| CaptureWaits.WaitingDelete | client/internal/reconcile/sync_capture.go:229-250 | a delete waits for the last operation queued for the object and for the delete before it |
| CaptureWaits.InsideDoomed | client/internal/reconcile/sync_capture.go:144-161 | whatever refuses the create of a folder takes along every create captured inside it, at any depth |
| CaptureStore.EmitCreates | client/internal/reconcile/sync_capture.go:139-175 | creates parents first; succeeds exactly if every folder above is known, and its operations are accepted and show the new objects |
| CaptureStore.EmitChange | client/internal/reconcile/sync_capture.go:176-228 | a move if the place differs, then an update if the bytes do; succeeds exactly if the folder moved into is known and the bytes can be staged |
| CaptureStore.EmitChanges | client/internal/reconcile/sync_capture.go:176-228 | emits a move where the place differs and an update where the bytes do, for all followed objects: accepted exactly if there is room for their revisions |
| CaptureStore.EmitDeletes | client/internal/reconcile/sync_capture.go:229-250 | deletes deepest first, each waiting for the one before |
| CaptureStore.DeletesOrdered | client/internal/reconcile/sync_capture.go:134-136 | whatever is deleted is deleted after everything that lay deeper |
| CaptureStore.OnlyLeftAlone | client/internal/reconcile/sync_capture.go:229-250 | what still lies in a folder when its delete's turn comes is nothing the batch creates, changes or deletes |
| CaptureStore.DeletesEmptyIf | client/internal/reconcile/sync_capture.go:229-250 | between snapshots of trees, a deleted folder is empty at its turn if and only if nothing lies in it that the capture leaves alone |
| CaptureStore.Derive | client/internal/reconcile/sync_capture.go:26-252 | succeeds exactly when the scan is derivable; then the queue accepts every operation in order, each operation waits for exactly what it must, and replaying them on the projected view of the old snapshot gives parent, name and hash of the new one for every tracked object; at its turn, every folder it deletes is empty exactly if nothing lies in it that the capture leaves alone; it reports exactly the notes too large to stage |
| CaptureStore.CancelsNothing | client/internal/clientsync/store.go:255-265 | cancelling an object that is not durable changes nothing |
| CaptureStore.CaptureSnapshot | client/internal/clientsync/store.go:234-265 | queues a derived batch, exactly if there is room for every revision; then the queue has only grown and is still chains, and whatever is created inside a created folder depends on the folder's create; otherwise nothing changed |
| CaptureStore.ComesBack | client/internal/reconcile/sync_capture.go:81-89 | a concrete derivable scan with nested paths, a folder back on disk while its delete is queued: the batch is accepted but has nothing to move |
| CaptureStore.MovesIntoNew | client/internal/reconcile/sync_capture.go:186-211 | a concrete scan in which a folder was moved into a new one: the derivation fails although the new folder could be created |
| CaptureOps.CreateAccepted | client/internal/reconcile/sync_capture.go:139-175 | the create of a new object is accepted behind the rest of the batch |
| CaptureOps.MoveAccepted | client/internal/reconcile/sync_capture.go:186-211 | the move of a followed object is accepted behind the rest of the batch |
| CaptureOps.UpdateAccepted | client/internal/reconcile/sync_capture.go:212-227 | the update of a followed note is accepted behind the rest of the batch |
| CaptureOps.SecondAccepted | client/internal/reconcile/sync_capture.go:208-227 | the update behind a note's own move is accepted if a revision is left |
| CaptureOps.ChangeAccepted | client/internal/reconcile/sync_capture.go:176-228 | whatever a followed object emits is accepted if there is room for its revisions |
| CaptureOps.ChangeRefused | client/internal/reconcile/sync_capture.go:208-227 | without room for a followed object's revisions the whole batch fails |
| CaptureOps.DeleteAccepted | client/internal/reconcile/sync_capture.go:229-250 | the delete of a vanished object is accepted behind the rest of the batch |
| CaptureReplay.CreateShown | client/internal/reconcile/sync_capture.go:139-175 | replaying a create is possible exactly if the folder still exists, and shows the object |
| CaptureReplay.ChangeShown | client/internal/reconcile/sync_capture.go:176-228 | replaying what a followed object emits is possible exactly if it and its folder still exist, and shows it |
| CaptureReplay.DeleteShown | client/internal/reconcile/sync_capture.go:229-250 | replaying a delete of a vanished object is always possible, and takes it away; `CaptureStore.DeletesEmptyIf` says when its folder is empty then |
| CaptureReplay.FollowMatches | client/internal/reconcile/sync_capture.go:61-97 | a followed object ends where the new snapshot has it, with its bytes unless they are too large |
| CaptureReplay.AllCaught | client/internal/reconcile/sync_capture.go:26-252 | once every creation, change and delete is replayed the view shows the new snapshot for every tracked object, none of the vanished ones, and the rest as before |
| DivergentPlan.JoinsPlan | client/internal/clientsync/folder_divergent_move_tree.go:110-165 | a checked member with new identities joins the plan |
| DivergentPlan.NoRootHistory | client/internal/clientsync/folder_divergent_move_tree.go:98-104 | the refused root itself cannot be a local member |
| DivergentPlanner.PlanLocal | client/internal/clientsync/folder_divergent_move_tree.go:186-265 | reads an object's whole queued history, and succeeds exactly if it is one pending create behind the parent's operation and a chain of pending updates ending at the bytes on disk |
| DivergentPlanner.PlanOne | client/internal/clientsync/folder_divergent_move_tree.go:121-156 | a candidate the server knows gets a fresh identity and must have nothing open, any other keeps its own; succeeds whenever some plan has the candidate |
| DivergentPlanner.PlanNext | client/internal/clientsync/folder_divergent_move_tree.go:110-165 | extends the plan by one candidate below its planned parent, or there is no plan |
| DivergentPlanner.PlanTree | client/internal/clientsync/folder_divergent_move_tree.go:88-176 | finds a plan exactly if the header is valid, the server knows a candidate and a plan exists; the plan gives every candidate its place, origin and identities |
| DivergentExact.LocalHistory | client/internal/clientsync/folder_divergent_move_tree.go:186-265 | the history of a queued object is its create and then its updates, in order |
| DivergentExact.LocalUnique | client/internal/clientsync/folder_divergent_move_tree.go:186-265 | an object is queued as a local member in one way only |
| DivergentExact.StepRules | client/internal/clientsync/folder_divergent_move_tree.go:110-165 | a candidate that fails a check of the loop rules out every plan |
| DivergentExact.AgreeNext | client/internal/clientsync/folder_divergent_move_tree.go:110-165 | all plans agree with the planner on parents, paths, operations and chains |
| DivergentExact.RecoveredIsNew | client/internal/clientsync/folder_divergent_move_tree.go:140-158 | an identity drawn for a member never clashes with another member's |
| DivergentExact.ClosedSame | client/internal/clientsync/folder_divergent_move_tree.go:285-320 | if any plan has closed dependents, so has the planner's |
| DivergentReplacement.PlanIsOneToOne | client/internal/clientsync/folder_divergent_move_tree.go:88-176 | a plan maps old ids to recovered ids one to one, keeping parent, name, kind and depth; known members get ids new to outbox, baselines and tree, local ones keep id and bytes |
| DivergentReplacement.ValidateTreeShape | client/internal/clientsync/folder_divergent_move_tree.go:322-347 | accepts exactly the well-shaped plans |
| DivergentReplacement.PlanShaped | client/internal/clientsync/folder_divergent_move_tree.go:322-347 | a plan with its rekeyed hashes filled in is well-shaped |
| DivergentTransaction.CreatesWaitForParents | client/internal/clientsync/folder_divergent_move_tree.go:609-655 | every emitted create depends on exactly one operation, the create of its recovered parent earlier in the list |
| DivergentTransaction.RetiresWholeQueues | client/internal/clientsync/folder_divergent_move_tree.go:285-320 | the operations a plan retires are whole queues with all their queued dependents |
| DivergentTransaction.CreatesGood | client/internal/clientsync/folder_divergent_move_tree.go:609-655 | the creates are accepted one by one |
| DivergentTransaction.TreeTransactionKeeps | client/internal/clientsync/folder_divergent_move_tree.go:573-655 | retiring and creating is accepted in full, keeps every queue a chain and strands nobody |
| DivergentTransaction.KnownUntouched | client/internal/clientsync/folder_divergent_move_tree.go:609-655 | no operation of the transaction touches a known member's old id |
| DivergentTransaction.RetireLocal | client/internal/clientsync/folder_divergent_move_tree.go:627-637 | supersedes exactly the operations of one local member |
| DivergentTransaction.SearchDependency | client/internal/clientsync/folder_divergent_move_tree.go:638-647 | finds the create of the recovered parent |
| DivergentTransaction.BuildTree | client/internal/clientsync/folder_divergent_move_tree.go:609-655 | always succeeds on a plan of an unchanged outbox |
| DivergentBuilt.CreatesPlayed | client/internal/clientsync/folder_divergent_move_tree.go:621-655 | played in their order on the server's tree, the creates succeed if and only if whatever has a member below it is a folder, and then build exactly the members |
| DivergentBuilt.TreeBuilds | client/internal/clientsync/folder_divergent_move_tree.go:573-655 | for a plan of a tree on disk they build its image below the recovered root: every candidate under its new identity below the image of its parent, with its kind and name, local notes with their last bytes; nothing else changes |
| DivergentStale.StaleTransaction | client/internal/clientsync/folder_divergent_move_tree.go:609-655 | over any outbox that still has the local operations pending: accepted exactly when every create fits, other operations untouched, and somebody left waiting exactly when a queued operation of an object not created waits for a retired one |
| DivergentLate.LaterLeftBehind | client/internal/clientsync/folder_divergent_move_tree.go:609-655 | a concrete outbox in which all the transaction checks holds, and which it leaves with an operation waiting for a superseded one |
| DivergentStale.OnlyLaterLeft | client/internal/clientsync/folder_divergent_move_tree.go:609-655 | whoever is left behind was queued after the plan was made |
| DivergentStale.TreeCreatesFit | client/internal/clientsync/folder_divergent_move_tree.go:638-653 | the creates are of different objects and each waits for earlier ones only |
| DivergentVault.Vault.EnsureStage | client/internal/app/divergent_folder_tree.go:142-199 | once done, the original of every known note and a directory for every known folder are staged and nothing else; the stage is beyond repair afterwards if and only if it was before or a perilous fault struck |
| DivergentVault.Vault.CreateStage | client/internal/repository/folder_publication_unix.go:35-85 | makes the stage directory and then its marker; a directory without a marker is left if and only if a perilous fault struck |
| DivergentVault.Vault.CreateNote | client/internal/repository/rooted_unix.go:175-201 | writes a temporary file, links it and removes it; a file is left behind if and only if a perilous fault struck |
| DivergentVault.Vault.MoveFolder | client/internal/repository/folder_mutation_unix.go:29-111 | renames the folder to a hidden name and from there to its destination; it is left hidden if and only if a perilous fault struck, and arrives or returns otherwise |
| DivergentVault.Vault.WriteNote | client/internal/repository/rooted_unix.go:216-285 | replaces a note's bytes through two hidden files: the note has its old or its new bytes or none, and a hidden file is left or the name lost if and only if a perilous fault struck |
| DivergentVault.Vault.UndoWrite | client/internal/repository/rooted_unix.go:244-270 | takes a failed replacement back: the old bytes get their name again, or a perilous fault struck |
| DivergentVault.Vault.Rewrite | client/internal/app/divergent_folder_tree.go:252-278 | from any mix of original and rekeyed notes, ends with every known note rekeyed; notes change only to what they may hold, and something is left behind or lost if and only if a perilous fault struck |
| DivergentVault.Vault.Restore | client/internal/app/divergent_folder_tree.go:280-305 | from any mix, ends with every known note holding its original; something is left behind or lost if and only if a perilous fault struck |
| DivergentDisk.NotesAll | client/internal/app/divergent_folder_tree.go:252-305 | with every note handled the tree is exactly the recovered, or the original, one |
| DivergentDisk.StagedAll | client/internal/app/divergent_folder_tree.go:142-199 | with every entry handled the stage is complete |
| DivergentVault.Vault.RestorePrepared | client/internal/app/divergent_folder_tree.go:360-377 | without a further fault and not stuck, ends with the source tree back in its place; stuck afterwards if and only if it was before or a perilous fault struck |
| DivergentVault.Vault.Evacuate | client/internal/app/divergent_folder_tree.go:378-442 | ends evacuated, or after a fault; from a hidden folder nothing changes; stuck afterwards if and only if it was before or a perilous fault struck; a single fault that leaves nothing stuck leaves the tree as it was or the source tree back in its place |
| DivergentVault.Vault.SealEvacuation | client/internal/app/divergent_folder_tree.go:413-441 | records the evacuation, or undoes it |
| DivergentVault.Vault.PrepareCanonical | client/internal/app/divergent_folder_tree.go:443-468 | completes and verifies the stage before the phase is recorded |
| DivergentVault.Vault.Publish | client/internal/app/divergent_folder_tree.go:469-494 | publishes the stage once, also when a crash hid the rename |
| DivergentVault.Vault.Complete | client/internal/app/divergent_folder_tree.go:495-547 | completes only with both trees verified |
| DivergentVault.Vault.Recover | client/internal/app/divergent_folder_tree.go:350-549 | picked up at any phase, ends completed with the recovered tree aside and the originals published, or was faulted, or was stuck; crashed only if a crash struck; stuck afterwards if and only if it was before or a perilous fault struck |
| DivergentVault.Vault.RecoverUntilDone | client/internal/app/divergent_folder_tree.go:350-549 | given more cycles than faults, rerunning ends completed if and only if it was not stuck to begin with and no perilous fault struck; and at every point of the run each known note's original bytes are in the moved tree or the stage |
| DivergentVault.Vault.RerunStuck | client/internal/app/divergent_folder_tree.go:378-400 | no rerun, whatever strikes it, gets past anything left halfway, and from a hidden folder no rerun changes anything |
| DivergentVault.CutShort | client/internal/app/divergent_folder_tree.go:378-400 | runs from a freshly prepared recovery that one fault leaves stuck for ever: between the two renames of the folder, or between the stage directory and its marker |
| Sorting.SortRanked | client/internal/reconcile/sync_capture.go:130-136 | sorting by depth, or by path, puts lower ranks first |
| Sorting.SortHas | client/internal/reconcile/sync_capture.go:130-136 | sorting keeps exactly the same elements |

## Left out

- NoteMove.Volume.MoveExpected: is stated for non-empty bytes, because a reserved staging name is an empty file and would itself count as a staged copy of an empty note.
- NoteMove.MoveAndRerun: starts with nothing staged; `NoteMove.DieTwice` shows why two crashes can leave more than a rerun resolves. With the source still in place it needs the destination free, as the code does.
- PreflightPlan.PreflightNotePlan: takes what the steps check on disk, in blobs and against staged conflicts as one given answer per step, so it does not say when those checks succeed.
- CaptureStore.Derive: says when it succeeds only if every path extends its parent's, as the paths of a scan do; what it queues when it succeeds holds for all inputs.
- DivergentPlanner.PlanTree: says when it succeeds only for an outbox whose rows have valid shapes, which every insertion checks; what a plan satisfies holds for all inputs.
- BlobCleanup.RunSafe: leaves out the chains of move-delete and divergent recoveries, which the query protects in the same way, and the query's limit of 100 entries; the replacement of a recursive tree is a step of the run whose condition is proved by `BlobTree.TreeKeepsBytes`.
- OutboxRuns.RunKeepsChains: has no step that marks a conflict as met, and none of the two supersede paths that are not closed under dependents (conflicts.go:458, preserve_delete.go:253).
- OutboxDrain.Drain: takes what staging a conflict comes to as given; of its effects on the outbox it models the supersession of dependents, not the recoveries of folders.
- CaptureReplay.DeleteShown: does not ask for an empty folder; `CaptureStore.Derive` says when the folders it deletes are empty.
- FolderOrder.MatchSettledIff: is stated over the orders of the verified moves, with no two paths on disk the same directory; once the forced targets are given the result is unique, so no other order matters.
- DivergentStale.StaleTransaction: leaves out the re-check of known descendants and of the folder bindings in the same transaction.
- DivergentVault.Vault.WriteNote: counts the hidden files a cut write leaves, but not what is in them; a file whose writing was cut is one that is left.
- FolderMove.Volume.MoveExpected: a failing call is modelled as a refused rename or a crash; other error returns are not told apart.
- Folder publications and folder mutation bindings: device and inode checks inside the application of a plan.
- The parent-binding checks of ahead-of-order plans, the vacated-path check on disk, and legacy inbox rows.
- Deciding at plan time that a parent is a folder, re-validation of a stored plan's topology and bindings, and the re-check of known descendants before the divergent transaction; what it means for the outbox to have moved on is stated by `DivergentStale.StaleTransaction`.
- Waiting for a pull at the end of a divergent recovery, and edits by other processes during it.
- Carrying an earlier too-large issue forward, and building the maps of a scan from snapshot rows.
- Preserve-delete versions 1 to 3, manifest loading and row decoding.
- An all-zero hash column is modelled as the empty hash.
- SQL text, views and migrations: eligibility is taken from the conditions the code checks again.
- SHA-256, UUID generation, Unicode normal form and case folding; YAML frontmatter is an injective rewriting of bytes; clocks and timestamps.
- HTTP, sessions, the keyring, the desktop bridge, the file watcher and the user interface.
- Reserved conflict folders, folder restoration, move revert and the direct-note variants of move and delete recovery: smaller copies of the same prepare, move and complete pattern.
- The server beyond a revision per object, an append-only log and an accept-or-refuse answer.
