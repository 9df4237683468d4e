# CloudKitSynchronizer synchronization engine, in Dafny

This project models the synchronization engine of BigSyncKit's
`CloudKitSynchronizer`. It covers one synchronization round: `synchronize`,
`performSynchronization`, the fetch of database and zone changes, the merge
into the model adapters, the upload of records and deletions with its
adaptive batch size and retries, the reconciliation of change tokens after
an upload, and `finishSynchronization` with its restart after an expired
change token. It also covers the public operations of the synchronizer:
cancelling, resetting tokens and caches, and registering adapters.

The source chains `async` callbacks. The model cuts that chain at every
point where the source waits on CloudKit:

- `Engine.Step` names the point where a round is suspended.
- Each reply from CloudKit becomes an event method of the class.
- The reply's content (changed zones, per-zone results, saved records,
  errors) comes in as parameters.

The model has three layers:

- **Pure transitions.** Module `Engine` gives one pure transition per event
  over a `Session` value. `Invariants` proves that every transition keeps
  `ValidSession`. `Properties` proves what each transition promises.
- **The class.** `Synchronizer.CloudKitSynchronizer` keeps the source's
  fields and updates them in place. Each method is proved to leave
  `Snapshot() == Engine.OnX(old(Snapshot()), …)` and to keep `Valid()`.
  The source's loops (`loadTokens`, the zone-result loops, `adapterSet`,
  `hasAllTokens`, the adapter loops of `finishSynchronization`,
  `performSynchronization` and `resetSyncCaches`) are `while` loops with
  invariants that tie them to those functions.
- **Helpers.** The `sequential` runner (`Runner`), the merge and reset
  steps (`Merge`, `Reset`), token loading and the result loops (`Tokens`),
  the error classifiers (`Errors`) and the batch size (`BatchSize`) are
  functions with their own lemmas.

Parameters stand in for the parts of the system outside the model:

- `adapterProvider` (a function from zone to optional adapter) stands for
  the adapter provider.
- `persist` and `fails` give the outcome of an adapter's
  `persistImportedChanges` and `resetSyncCaches()` for each zone.
- `order` is the order in which a Swift dictionary enumerates its keys. The
  invariant only requires that it lists every key exactly once, so no
  property depends on it.

Some behaviours of the code that the model keeps as they are:

- **Downloaded records go straight to the adapter.** Each zone's downloaded
  and deleted records are handed to the adapter's `saveChanges` and
  `deleteRecords` as they arrive, one zone at a time.
- **`sequential` does not look at the cancel flag.** The runner goes through
  its items without checking for cancellation. Cancellation is observed only
  at the entries of `fetchChanges`, `mergeChanges` and the outer
  `uploadChanges`.
- **Deleted zones keep their adapters.** The provider is told about a
  deleted zone, but the synchronizer keeps the zone's adapter registered.
- **Conflicting server records are saved with `saveChanges(in:)`.** They are
  then persisted. The persist error is ignored and the page's own error is
  reported.
- **Token reconciliation has more outcomes.** It also restarts the round
  when a changed zone has no active token. When no zone changed, it finishes
  the round without storing the database token.
- **The classifiers read only the error code.** `shouldRetryUpload` and its
  classifiers compare `error.code` whatever the error's domain, so a local
  error carrying the code of server-record-changed or limit-exceeded is
  retried too (`Errors.RetryIffRecoverableBelowCap`).
- **The retry cap is per start of the round.** The cap of two upload retries
  counts from the last `performSynchronization`. When token reconciliation
  finds a zone with deltas, it restarts the round through
  `performSynchronization`, in the same round and with the same block, and
  that zeroes the counter. So one round may retry more than twice
  (`Properties.RetryBudgetRenewedByReconcile`).
- **A failed zone always stops the zone-changes loop.** This is the first
  row of "## Findings" below. The engine runs the loop as written
  (`Tokens.ApplyZoneResults`), so its properties describe what the program
  does. The corrected loop (`Tokens.ApplyZoneResultsIntended`) is defined
  beside it with its own lemmas.
- **The restart after an expired change token re-sends that token.** This
  is the second row of "## Findings". The engine ends a round with
  `Engine.Finished`, as the code does. `Engine.FinishedIntended`, which also
  clears the in-memory token, is defined beside it with its own lemma.

## Model

| member | source | states |
|---|---|---|
| Types.SyncErrorCode | Sources/BigSyncKit/QSSynchronizer/CloudKitSynchronizer.swift:78-98 | the raw value of every `SyncError` case lies in 0..4; `Types.SyncErrorCodesAreRawValues` shows the values are distinct and cover 0..4 |
| Types.SyncErrorCodesAreRawValues | Sources/BigSyncKit/QSSynchronizer/CloudKitSynchronizer.swift:78-98 | distinct `SyncError` cases have distinct raw values, and every value from 0 to 4 is the raw value of some case |
| Errors.RetryIffRecoverableBelowCap | Sources/BigSyncKit/QSSynchronizer/CloudKitSynchronizer+Sync.swift:129-171 | over the raw error: a CloudKit error is retried, below 2 retries, exactly when its code is server-record-changed or limit-exceeded, or it is a partial failure with an item reporting one of those codes; the synchronizer's own errors are never retried; a local error is retried exactly when its code is one of those two, below 2 retries |
| Errors.PartialItemErrorIsRetried | Sources/BigSyncKit/QSSynchronizer/CloudKitSynchronizer+Sync.swift:137-171 | a partial failure with one item reporting a conflict or a limit is retried, whatever the other items report |
| Errors.ItemErrorsIgnoredOutsidePartialFailure | Sources/BigSyncKit/QSSynchronizer/CloudKitSynchronizer+Sync.swift:137-171 | per-item codes count only under the partial-failure code; under any other top-level code the error is not retried |
| Errors.SyncErrorsAreNotRetried | Sources/BigSyncKit/QSSynchronizer/CloudKitSynchronizer+Sync.swift:129-135 | none of the synchronizer's own errors (cancelled, already syncing, …) is retried |
| Errors.NoRetryAtCap | Sources/BigSyncKit/QSSynchronizer/CloudKitSynchronizer+Sync.swift:129-135 | once 2 retries were made no error is retried |
| BatchSize.Halved | Sources/BigSyncKit/QSSynchronizer/CloudKitSynchronizer+Sync.swift:618-620 | Swift's `batchSize / 2`, truncating toward zero: for n ≥ 0 the result r satisfies 2r ≤ n ≤ 2r+1, for negative n it rounds up |
| BatchSize.RampNeverOvershoots | Sources/BigSyncKit/QSSynchronizer/CloudKitSynchronizer+Sync.swift:622-626 | any number of clean passes never takes a size below 400 past 404, and never moves one at or above 400 |
| BatchSize.RampFixedAtOrAboveDefault | Sources/BigSyncKit/QSSynchronizer/CloudKitSynchronizer+Sync.swift:622-626 | a size at or above the default never grows |
| BatchSize.RampProgress | Sources/BigSyncKit/QSSynchronizer/CloudKitSynchronizer+Sync.swift:622-626 | the ramp is monotone and climbs by exactly 5 per pass until it reaches the default |
| BatchSize.RepeatedHalvingBound | Sources/BigSyncKit/QSSynchronizer/CloudKitSynchronizer+Sync.swift:618-620 | k limit errors in a row leave a non-negative size at most n / 2^k and never negative |
| Adapters.RecordsToUpload | Sources/BigSyncKit/QSSynchronizer/CloudKitSynchronizer+Sync.swift:452-456 | the page is the first `min(limit, dirty)` dirty records, empty for a non-positive limit |
| Adapters.RecordIDsMarkedForDeletion | Sources/BigSyncKit/QSSynchronizer/CloudKitSynchronizer+Sync.swift:506-514 | the page is the first `min(limit, marked)` deletion markers, empty for a non-positive limit |
| Adapters.WithoutIds | Sources/BigSyncKit/QSSynchronizer/CloudKitSynchronizer+Sync.swift:477 | `didUpload` keeps exactly the dirty records whose identifiers were not saved |
| Adapters.Without | Sources/BigSyncKit/QSSynchronizer/CloudKitSynchronizer+Sync.swift:523 | `didDelete` keeps exactly the markers that were not deleted |
| Adapters.ValuesIn | Sources/BigSyncKit/QSSynchronizer/CloudKitSynchronizer.swift:332-334 | the adapters of the listed zones, one per zone, in list order |
| Adapters.PrepareAll | Sources/BigSyncKit/QSSynchronizer/CloudKitSynchronizer+Sync.swift:21-23 | every registered adapter, and nothing else, is importing and otherwise unchanged; adapters stay under their own zone |
| Adapters.FinishAll | Sources/BigSyncKit/QSSynchronizer/CloudKitSynchronizer+Sync.swift:35-37 | every registered adapter, and nothing else, has finished importing and is otherwise unchanged; adapters stay under their own zone |
| Adapters.SuccessfulPageShrinksDirty | Sources/BigSyncKit/QSSynchronizer/CloudKitSynchronizer+Sync.swift:477-496 | a non-empty page saved in full leaves strictly fewer dirty records and none of the page's records dirty, so the full-page loop of `uploadRecords` ends |
| Adapters.SuccessfulDeletionPageShrinksTombstones | Sources/BigSyncKit/QSSynchronizer/CloudKitSynchronizer+Sync.swift:523-535 | a non-empty page of deletions confirmed in full leaves strictly fewer markers, so the full-page loop of `uploadDeletions` ends |
| Runner.Sequential | Sources/BigSyncKit/QSSynchronizer/CloudKitSynchronizer+Sync.swift:173-189 | `sequential` calls at most one step per item plus one `final` |
| Runner.TraceShape | Sources/BigSyncKit/QSSynchronizer/CloudKitSynchronizer+Sync.swift:173-189 | the calls are the steps on a prefix of the items, in list order, and then `final` with the outcome |
| Runner.VisitedTail | Sources/BigSyncKit/QSSynchronizer/CloudKitSynchronizer+Sync.swift:179-188 | after a successful first step, `sequential` behaves as on the rest of the list, from the state that step left |
| Runner.StopsAtError | Sources/BigSyncKit/QSSynchronizer/CloudKitSynchronizer+Sync.swift:179-183 | a failing first step stops the runner with that step's error and state |
| Runner.VisitedPrefixSucceeded | Sources/BigSyncKit/QSSynchronizer/CloudKitSynchronizer+Sync.swift:179-188 | every visited item except the last succeeded |
| Runner.NilMeansAllSucceeded | Sources/BigSyncKit/QSSynchronizer/CloudKitSynchronizer+Sync.swift:173-189 | `final(nil)` means every item was run and succeeded, and the state is that of all steps in order |
| Runner.AllSucceededMeansNil | Sources/BigSyncKit/QSSynchronizer/CloudKitSynchronizer+Sync.swift:173-189 | conversely, when every item succeeds `final` gets nil |
| Runner.ErrorIsLastVisited | Sources/BigSyncKit/QSSynchronizer/CloudKitSynchronizer+Sync.swift:179-183 | on an error `final` gets the error of the last visited item, with the state its step left; later items are never run |
| Runner.FinalCalledOnce | Sources/BigSyncKit/QSSynchronizer/CloudKitSynchronizer+Sync.swift:173-189 | the final completion is called exactly once, as the last call |
| Runner.EmptyListCallsFinalWithNil | Sources/BigSyncKit/QSSynchronizer/CloudKitSynchronizer+Sync.swift:174-177 | an empty list calls `final(nil)` at once and changes nothing |
| Merge.MergeResult | Sources/BigSyncKit/QSSynchronizer/CloudKitSynchronizer+Sync.swift:340-354 | the merge keeps the registered zones and every adapter under its zone, leaves unlisted adapters alone, and when it succeeds every listed adapter has committed its changes and saved its zone's active token (if any) |
| Reset.ResetResult | Sources/BigSyncKit/QSSynchronizer/CloudKitSynchronizer.swift:229-233 | the reset loop keeps the registered zones, resets every listed adapter when none throws, and otherwise returns the error of one that threw |
| Tokens.SetToken | Sources/BigSyncKit/QSSynchronizer/CloudKitSynchronizer+Sync.swift:295 | assigning an optional token into the active map: nil removes the key, other keys are untouched |
| Tokens.Filter | Sources/BigSyncKit/QSSynchronizer/CloudKitSynchronizer+Sync.swift:329-334 | keeps exactly the listed zones that belong to the set |
| Tokens.LoadTokensFromAdapters | Sources/BigSyncKit/QSSynchronizer/CloudKitSynchronizer+Sync.swift:105-114 | the loop registers an adapter exactly for the zones the provider supplies one for (when allowed), prepared for import, and keeps registered adapters |
| Tokens.LoadTokensFromMatch | Sources/BigSyncKit/QSSynchronizer/CloudKitSynchronizer+Sync.swift:116-119 | the loop keeps the active map equal to the non-nil tokens of the kept zones' adapters |
| Tokens.LoadTokensFromFiltered | Sources/BigSyncKit/QSSynchronizer/CloudKitSynchronizer+Sync.swift:116-119 | the kept zones are the listed zones that end up with an adapter, in order |
| Tokens.LoadTokensResult | Sources/BigSyncKit/QSSynchronizer/CloudKitSynchronizer+Sync.swift:101-123 | `loadTokens` returns the zones with an adapter in input order and rebuilds the active map as exactly their adapters' non-nil tokens |
| Tokens.LoadTokensKeyed | Sources/BigSyncKit/QSSynchronizer/CloudKitSynchronizer+Sync.swift:106-110 | with a provider that answers with an adapter of the asked zone, every adapter stays under its own zone |
| Tokens.LoadTokensKeepsAdapters | Sources/BigSyncKit/QSSynchronizer/CloudKitSynchronizer+Sync.swift:107 | without `loadAdapters` the adapter dictionary is unchanged |
| Tokens.LoadTokensIgnoresProvider | Sources/BigSyncKit/QSSynchronizer/CloudKitSynchronizer+Sync.swift:107 | without `loadAdapters` the provider is never asked |
| Tokens.FirstFailure | Sources/BigSyncKit/QSSynchronizer/CloudKitSynchronizer+Sync.swift:276-284 | the position of the first failed zone result: all before it succeeded, it failed |
| Tokens.MoreComing | Sources/BigSyncKit/QSSynchronizer/CloudKitSynchronizer+Sync.swift:299-301 | at most one entry per result |
| Tokens.ApplyZoneResultsOutcome | Sources/BigSyncKit/QSSynchronizer/CloudKitSynchronizer+Sync.swift:273-303 | the loop's error is the first failed zone's error, the re-fetch list is the more-coming zones before it, in order, and no zone is reported deleted |
| Tokens.ApplyZoneResultsUntouched | Sources/BigSyncKit/QSSynchronizer/CloudKitSynchronizer+Sync.swift:276-303 | zones not reported before the first failure keep their active token and adapter |
| Tokens.ApplyZoneResultsApplied | Sources/BigSyncKit/QSSynchronizer/CloudKitSynchronizer+Sync.swift:293-298 | each zone before the first failure gets its reported token made active and its downloaded and deleted records applied to its adapter, if it has one |
| Tokens.ApplyZoneResultsKeyed | Sources/BigSyncKit/QSSynchronizer/CloudKitSynchronizer+Sync.swift:293-298 | applying zone results keeps every adapter under its own zone |
| Tokens.ZoneNotFoundAborts | Sources/BigSyncKit/QSSynchronizer/CloudKitSynchronizer+Sync.swift:278-284 | a zone-not-found result aborts the loop with its error instead of being reported as deleted |
| Tokens.ZoneNotFoundCounterexample | Sources/BigSyncKit/QSSynchronizer/CloudKitSynchronizer+Sync.swift:276-303 | on a zone-not-found result followed by a successful zone, the loop as written stops with the not-found error, reports no deletion and never records the second zone's token; the corrected loop reports the first zone deleted and records the second zone's token |
| Tokens.IntendedReportsDeletedZones | Sources/BigSyncKit/QSSynchronizer/CloudKitSynchronizer+Sync.swift:276-284 | in the corrected loop, with no failure other than not-found or deleted zones, the loop ends without error and reports every such zone to the provider, in order |
| Tokens.IntendedAppliesOtherZones | Sources/BigSyncKit/QSSynchronizer/CloudKitSynchronizer+Sync.swift:276-303 | in the corrected loop a deleted zone does not stop the others: every successful zone, before or after it, gets its token and its records applied |
| Tokens.IntendedUntouched | Sources/BigSyncKit/QSSynchronizer/CloudKitSynchronizer+Sync.swift:276-303 | in the corrected loop a zone that appears in no result keeps its active token and its adapter |
| Tokens.ReconcileNeeds | Sources/BigSyncKit/QSSynchronizer/CloudKitSynchronizer+Sync.swift:596-607 | a refetch is needed exactly when some result carries downloaded or deleted records |
| Tokens.ReconcilePending | Sources/BigSyncKit/QSSynchronizer/CloudKitSynchronizer+Sync.swift:604-606 | every zone with more coming is queued, in order, and the registered zones stay the same |
| Tokens.ReconcileUntouched | Sources/BigSyncKit/QSSynchronizer/CloudKitSynchronizer+Sync.swift:596-607 | a zone with no clean result keeps its active token and its adapter |
| Tokens.ReconcileCleanZoneSaved | Sources/BigSyncKit/QSSynchronizer/CloudKitSynchronizer+Sync.swift:600-603 | a clean zone gets its reported token made active (absent when nil) and saved to its adapter |
| Tokens.ReconcileResultsKeyed | Sources/BigSyncKit/QSSynchronizer/CloudKitSynchronizer+Sync.swift:596-607 | reconciliation keeps every adapter under its own zone |
| Engine.NextRecordsWork | Sources/BigSyncKit/QSSynchronizer/CloudKitSynchronizer+Sync.swift:408-456 | the next adapter of the records pass that has a zone to set up or records to send; all skipped ones have neither |
| Engine.NextDeletionsWork | Sources/BigSyncKit/QSSynchronizer/CloudKitSynchronizer+Sync.swift:506-514 | the next adapter of the deletions pass with IDs to delete; all skipped ones have none |
| Engine.UploadedIn | Sources/BigSyncKit/QSSynchronizer/CloudKitSynchronizer+Sync.swift:477 | `didUpload` keeps the registered zones and every adapter under its zone |
| Engine.ConflictsSavedIn | Sources/BigSyncKit/QSSynchronizer/CloudKitSynchronizer+Sync.swift:483-487 | saving the conflicts keeps the registered zones and every adapter under its zone |
| Engine.DeletedIn | Sources/BigSyncKit/QSSynchronizer/CloudKitSynchronizer+Sync.swift:523 | `didDelete` keeps the registered zones and every adapter under its zone |
| Invariants.FinishedKeepsValid | Sources/BigSyncKit/QSSynchronizer/CloudKitSynchronizer+Sync.swift:29-70 | `finishSynchronization` keeps the session invariant (retries within 0..2, no cancel or block outside a round, every adapter under its zone) |
| Invariants.PerformedKeepsValid | Sources/BigSyncKit/QSSynchronizer/CloudKitSynchronizer+Sync.swift:13-26 | `performSynchronization` keeps the session invariant |
| Invariants.FetchCompletedKeepsValid | Sources/BigSyncKit/QSSynchronizer/CloudKitSynchronizer+Sync.swift:209-224 | the completion of the fetch keeps the session invariant |
| Invariants.UploadFinishedKeepsValid | Sources/BigSyncKit/QSSynchronizer/CloudKitSynchronizer+Sync.swift:369-394 | the end of an upload pass keeps the session invariant; in particular a retry never takes the count past 2 |
| Invariants.AdvanceDeletionsKeepsValid | Sources/BigSyncKit/QSSynchronizer/CloudKitSynchronizer+Sync.swift:403 | moving through the deletions pass keeps the session invariant |
| Invariants.AdvanceRecordsKeepsValid | Sources/BigSyncKit/QSSynchronizer/CloudKitSynchronizer+Sync.swift:399-404 | moving through the records pass keeps the session invariant |
| Invariants.UpdateServerTokenKeepsValid | Sources/BigSyncKit/QSSynchronizer/CloudKitSynchronizer+Sync.swift:576-587 | `updateServerToken` keeps the session invariant |
| Invariants.OnSynchronizeKeepsValid | Sources/BigSyncKit/QSSynchronizer/CloudKitSynchronizer.swift:245-264 | `synchronize` keeps the session invariant |
| Invariants.OnCancelKeepsValid | Sources/BigSyncKit/QSSynchronizer/CloudKitSynchronizer.swift:268-273 | `cancelSynchronization` keeps the session invariant |
| Invariants.OnFetchChangesKeepsValid | Sources/BigSyncKit/QSSynchronizer/CloudKitSynchronizer+Sync.swift:200-209 | `fetchChanges` keeps the session invariant |
| Invariants.OnDatabaseChangesKeepsValid | Sources/BigSyncKit/QSSynchronizer/CloudKitSynchronizer+Sync.swift:229-248 | the database-changes handler keeps the session invariant |
| Invariants.OnZoneChangesKeepsValid | Sources/BigSyncKit/QSSynchronizer/CloudKitSynchronizer+Sync.swift:268-316 | the zone-changes handler keeps the session invariant |
| Invariants.OnMergeChangesKeepsValid | Sources/BigSyncKit/QSSynchronizer/CloudKitSynchronizer+Sync.swift:323-337 | `mergeChanges` keeps the session invariant |
| Invariants.OnUploadChangesKeepsValid | Sources/BigSyncKit/QSSynchronizer/CloudKitSynchronizer+Sync.swift:361-369 | the outer `uploadChanges` keeps the session invariant |
| Invariants.OnZoneCheckedKeepsValid | Sources/BigSyncKit/QSSynchronizer/CloudKitSynchronizer+Sync.swift:432-434 | the reply to the zone lookup keeps the session invariant |
| Invariants.OnZoneCreatedKeepsValid | Sources/BigSyncKit/QSSynchronizer/CloudKitSynchronizer+Sync.swift:436-443 | the reply to the zone creation keeps the session invariant |
| Invariants.OnRecordsUploadedKeepsValid | Sources/BigSyncKit/QSSynchronizer/CloudKitSynchronizer+Sync.swift:469-500 | the records completion keeps the session invariant |
| Invariants.OnDeletionsUploadedKeepsValid | Sources/BigSyncKit/QSSynchronizer/CloudKitSynchronizer+Sync.swift:517-539 | the deletions completion keeps the session invariant |
| Invariants.OnReconcileDatabaseKeepsValid | Sources/BigSyncKit/QSSynchronizer/CloudKitSynchronizer+Sync.swift:549-571 | the database-changes handler of `updateTokens` keeps the session invariant |
| Invariants.OnReconcileZonesKeepsValid | Sources/BigSyncKit/QSSynchronizer/CloudKitSynchronizer+Sync.swift:589-614 | the key-only zone-changes handler keeps the session invariant |
| Invariants.OnOperationFailedKeepsValid | Sources/BigSyncKit/QSSynchronizer/CloudKitSynchronizer+Sync.swift:83-91 | the error handler of `runOperation` keeps the session invariant |
| Invariants.OnResetSyncCachesKeepsValid | Sources/BigSyncKit/QSSynchronizer/CloudKitSynchronizer.swift:222-235 | `resetSyncCaches` keeps the session invariant |
| Properties.SynchronizeNotAllowed | Sources/BigSyncKit/QSSynchronizer/CloudKitSynchronizer.swift:246-249 | with syncing not allowed the block gets `.notAllow` and nothing else changes |
| Properties.SynchronizeWhileSyncing | Sources/BigSyncKit/QSSynchronizer/CloudKitSynchronizer.swift:251-254 | during a round the block gets `.alreadySyncing` and the running round, its flags and its block are untouched |
| Properties.SynchronizeAccepted | Sources/BigSyncKit/QSSynchronizer/CloudKitSynchronizer.swift:257-263 | an accepted call opens a round: syncing, not cancelled, block stored, fetch about to run from the stored database token, retries zero, every adapter preparing to import |
| Properties.AtMostOneRound | Sources/BigSyncKit/QSSynchronizer/CloudKitSynchronizer.swift:245-264 | a running round keeps its step and its block, whatever `synchronize` is called with |
| Properties.CancelOnlyRaisesFlag | Sources/BigSyncKit/QSSynchronizer/CloudKitSynchronizer.swift:268-273 | cancelling only sets `cancelSync`, and only during a round |
| Properties.CancelIdempotent | Sources/BigSyncKit/QSSynchronizer/CloudKitSynchronizer.swift:269 | cancelling twice is cancelling once |
| Properties.FinishClosesRound | Sources/BigSyncKit/QSSynchronizer/CloudKitSynchronizer+Sync.swift:29-70 | finishing clears active tokens and retries, lowers both flags, calls the block once with the error and drops it; an expired token also drops the stored token and every adapter and schedules a fetch, any other outcome keeps them and finishes every adapter's import |
| Properties.CompletionCalledOnce | Sources/BigSyncKit/QSSynchronizer/CloudKitSynchronizer+Sync.swift:43-44 | the block is called at most once per round: finishing again calls nothing |
| Properties.TokenExpiredRestart | Sources/BigSyncKit/QSSynchronizer/CloudKitSynchronizer+Sync.swift:50-59 | the restart after an expired token runs outside any round, with no adapters and no stored database token; its fetch is not stopped by a cancellation and sends the in-memory token of the failed round |
| Properties.ExpiredTokenRestartRepeats | Sources/BigSyncKit/QSSynchronizer/CloudKitSynchronizer+Sync.swift:50-59 | the restarted fetch re-sends the expired token, and a second expiry brings the session back to the very same state |
| Properties.IntendedRestartStartsFromScratch | Sources/BigSyncKit/QSSynchronizer/CloudKitSynchronizer+Sync.swift:50-59 | with the in-memory token cleared too, the restarted fetch sends no token; every other ending is the one the code has |
| Properties.OtherDomainDoesNotRestart | Sources/BigSyncKit/QSSynchronizer/CloudKitSynchronizer+Sync.swift:50-52 | a local (non-CloudKit) error, whatever its code, finishes the round for good |
| Properties.CancellationGates | Sources/BigSyncKit/QSSynchronizer/CloudKitSynchronizer+Sync.swift:200-204 | with the flag raised, `fetchChanges`, `mergeChanges` and the outer `uploadChanges` end the round with `.cancelled` |
| Properties.CancelThenFetchEndsRound | Sources/BigSyncKit/QSSynchronizer/CloudKitSynchronizer.swift:268-273 | a cancel before a phase entry ends the round there and the block gets `.cancelled` |
| Properties.GatesOpenWithoutCancel | Sources/BigSyncKit/QSSynchronizer/CloudKitSynchronizer+Sync.swift:361-369 | without a cancel each gate lets its phase run |
| Properties.UploadOutcome | Sources/BigSyncKit/QSSynchronizer/CloudKitSynchronizer+Sync.swift:369-394 | a failed pass is retried by fetching again in the same round exactly when `shouldRetryUpload` allows, and otherwise finishes with the error; a clean pass grows the batch size and starts reconciliation |
| Properties.SpentRetriesEndRound | Sources/BigSyncKit/QSSynchronizer/CloudKitSynchronizer+Sync.swift:382-389 | with two retries spent since the round last started, the next failed pass ends the round |
| Properties.AdvanceDeletionsWaitsOnlyForWork | Sources/BigSyncKit/QSSynchronizer/CloudKitSynchronizer+Sync.swift:506-514 | the deletions pass waits on CloudKit only for a non-empty page of at most `batchSize` IDs of its current adapter, skips adapters with none, and completes the upload at the end |
| Properties.AdvanceRecordsWaitsOnlyForWork | Sources/BigSyncKit/QSSynchronizer/CloudKitSynchronizer+Sync.swift:408-461 | the records pass waits only on a zone lookup for an adapter with no token, or on a non-empty page of at most `batchSize` records (the zone recorded as notified); skipped adapters have no work; it moves forward, changes no adapter, and at its end starts the deletions pass |
| Properties.UploadFinishedKeepsContents | Sources/BigSyncKit/QSSynchronizer/CloudKitSynchronizer+Sync.swift:369-394 | the end of a pass leaves every adapter's contents alone, except the restart after an expired token, which drops them all |
| Properties.RecordsPageBatchSize | Sources/BigSyncKit/QSSynchronizer/CloudKitSynchronizer+Sync.swift:479-482 | a page failing with a limit error halves the batch size; any other error leaves it |
| Properties.FailedUploadPass | Sources/BigSyncKit/QSSynchronizer/CloudKitSynchronizer+Sync.swift:382-389 | a failed pass keeps the batch size and is either retried from the fetch or ends the round |
| Properties.RecordsPageFailed | Sources/BigSyncKit/QSSynchronizer/CloudKitSynchronizer+Sync.swift:479-490 | any error on a records page ends the pass, retried or reported as `shouldRetryUpload` decides |
| Properties.RecordsPageFailedAdapter | Sources/BigSyncKit/QSSynchronizer/CloudKitSynchronizer+Sync.swift:477-490 | after a failed page the saved records are no longer dirty; unless it was a limit error, the conflicting server records were saved and persisted |
| Properties.RecordsPageSaved | Sources/BigSyncKit/QSSynchronizer/CloudKitSynchronizer+Sync.swift:491-497 | after a saved page the saved records are no longer dirty; a full page returns to the same adapter when it has more, a short page moves on |
| Properties.DeletionsPageFailed | Sources/BigSyncKit/QSSynchronizer/CloudKitSynchronizer+Sync.swift:525-529 | a failed deletions page halves the batch size on a limit error and ends the pass |
| Properties.DeletionsPageFailedAdapter | Sources/BigSyncKit/QSSynchronizer/CloudKitSynchronizer+Sync.swift:523-529 | after a failed deletions page the deleted IDs are no longer marked |
| Properties.DeletionsPageSent | Sources/BigSyncKit/QSSynchronizer/CloudKitSynchronizer+Sync.swift:530-536 | after an accepted deletions page the sent IDs are no longer marked; a full page returns to the same adapter when it has more, and a short page moves on to a later adapter |
| Properties.ZoneCheckedOutcome | Sources/BigSyncKit/QSSynchronizer/CloudKitSynchronizer+Sync.swift:431-450 | a missing zone is created before any record is sent; another error ends the pass; otherwise the records follow with setup counted as done |
| Properties.ZoneChangesFailed | Sources/BigSyncKit/QSSynchronizer/CloudKitSynchronizer+Sync.swift:276-315 | a page with a failed zone finishes the round with the first failed zone's error, reporting no zone deleted |
| Properties.ZoneChangesComplete | Sources/BigSyncKit/QSSynchronizer/CloudKitSynchronizer+Sync.swift:305-315 | with no failed zone, the more-coming zones are fetched again in order, and with none the merge follows with the same database token |
| Properties.ZoneChangesApplied | Sources/BigSyncKit/QSSynchronizer/CloudKitSynchronizer+Sync.swift:293-298 | with no failed zone each reported zone gets its token active and its records applied to its adapter |
| Properties.ZoneChangesUntouched | Sources/BigSyncKit/QSSynchronizer/CloudKitSynchronizer+Sync.swift:276-303 | with no failed zone an unreported zone keeps its active token and adapter |
| Properties.MergeQueueIsActiveAdapters | Sources/BigSyncKit/QSSynchronizer/CloudKitSynchronizer+Sync.swift:329-334 | the merge runs over exactly the adapters of zones with an active token, each once |
| Properties.MergeOutcome | Sources/BigSyncKit/QSSynchronizer/CloudKitSynchronizer+Sync.swift:336-354 | a failed merge finishes the round with its error, and keeps the stored database token unless the error is an expired token; a complete one stores the reached token, leaves each merged adapter committed with its zone's token saved, and uploads exactly in `.sync` mode, ending the round in `.downloadOnly` |
| Properties.MergeSavesActiveToken | Sources/BigSyncKit/QSSynchronizer/CloudKitSynchronizer+Sync.swift:340-354 | after a complete merge, the adapter of every active zone holds exactly the token `activeZoneToken` gives for that zone |
| Properties.DownloadOnlyNeverUploads | Sources/BigSyncKit/QSSynchronizer/CloudKitSynchronizer+Sync.swift:219-223 | in `.downloadOnly` mode neither an empty fetch nor a merge leads to the upload |
| Properties.DatabaseChangesFetch | Sources/BigSyncKit/QSSynchronizer/CloudKitSynchronizer+Sync.swift:229-248 | when some changed zone has an adapter, the deleted zones are reported and exactly those zones are fetched in order with their adapters' tokens active |
| Properties.DatabaseChangesNothingToFetch | Sources/BigSyncKit/QSSynchronizer/CloudKitSynchronizer+Sync.swift:236-240 | when no changed zone has an adapter, the fetch completes at once: the database token is stored and no zone token stays active |
| Properties.FetchCompletedClean | Sources/BigSyncKit/QSSynchronizer/CloudKitSynchronizer+Sync.swift:217-223 | a fetch without error stores the database token it reached and uploads exactly in `.sync` mode |
| Properties.DatabaseChangesAdapters | Sources/BigSyncKit/QSSynchronizer/CloudKitSynchronizer+Sync.swift:105-114 | in `.sync` mode registered adapters are kept unchanged, and a new adapter is the provider's for a changed zone, preparing to import |
| Properties.UpdateServerTokenRefetchIffMissing | Sources/BigSyncKit/QSSynchronizer/CloudKitSynchronizer+Sync.swift:576-589 | the round starts over exactly when a listed zone has no active token, from the stored database token in the same round and block; otherwise the zones are fetched key-only |
| Properties.ReconcileDatabaseOutcome | Sources/BigSyncKit/QSSynchronizer/CloudKitSynchronizer+Sync.swift:549-571 | with no changed zone the round finishes without storing the database token; with some, no adapter is loaded and nothing is stored yet |
| Properties.ReconcileZonesStale | Sources/BigSyncKit/QSSynchronizer/CloudKitSynchronizer+Sync.swift:596-612 | a zone with deltas starts the round over in the same round and block, storing nothing and with the retry counter back at zero |
| Properties.RetryBudgetRenewedByReconcile | Sources/BigSyncKit/QSSynchronizer/CloudKitSynchronizer+Sync.swift:13-18 | after both retries are spent, a restart from the reconciliation keeps the round running and the next conflict on upload is retried again: the cap is per start of the round |
| Properties.ReconcileZonesDone | Sources/BigSyncKit/QSSynchronizer/CloudKitSynchronizer+Sync.swift:609-612 | all zones clean and none with more coming: the database token is stored and the round finishes |
| Properties.ReconcileZonesMoreComing | Sources/BigSyncKit/QSSynchronizer/CloudKitSynchronizer+Sync.swift:609-610 | all zones clean but some with more coming: those zones are fetched again (or the round restarts when one has no token), nothing stored yet |
| Properties.ReconcileZonesAdapterToken | Sources/BigSyncKit/QSSynchronizer/CloudKitSynchronizer+Sync.swift:596-603 | a clean zone's adapter saves the reported token; a zone with deltas keeps its adapter's token |
| Properties.ReconcileZonesKeepsTokens | Sources/BigSyncKit/QSSynchronizer/CloudKitSynchronizer+Sync.swift:609-612 | whatever follows the reconciliation, every adapter keeps the token the reconciliation left it |
| Properties.ResetSyncCachesOutcome | Sources/BigSyncKit/QSSynchronizer/CloudKitSynchronizer.swift:222-235 | a running round is asked to cancel and the database and active tokens are dropped; with no throw every adapter (if asked) is reset and `forceSaveRecordOnce` is set; a throw is returned and the flag is not set |
| Synchronizer.CloudKitSynchronizer.constructor | Sources/BigSyncKit/QSSynchronizer/CloudKitSynchronizer.swift:135-201 | a new synchronizer is valid: not syncing, syncing allowed, batch size 400, `.sync` mode, no adapters, the stored database token |
| Synchronizer.CloudKitSynchronizer.Synchronize | Sources/BigSyncKit/QSSynchronizer/CloudKitSynchronizer.swift:245-264 | updates the fields to `OnSynchronize` of the old state and keeps `Valid()` |
| Synchronizer.CloudKitSynchronizer.CancelSynchronization | Sources/BigSyncKit/QSSynchronizer/CloudKitSynchronizer.swift:268-273 | updates the fields to `OnCancel` of the old state and keeps `Valid()` |
| Synchronizer.CloudKitSynchronizer.ResetDatabaseToken | Sources/BigSyncKit/QSSynchronizer/CloudKitSynchronizer.swift:279-281 | only the stored database token changes, to nil |
| Synchronizer.CloudKitSynchronizer.ActiveZoneToken | Sources/BigSyncKit/QSSynchronizer/CloudKitSynchronizer.swift:283-285 | the zone's active token, nil exactly when the zone has none; the merge reads the token through it, and `Properties.MergeSavesActiveToken` shows that after a complete merge each active zone's adapter holds exactly this token |
| Synchronizer.CloudKitSynchronizer.ModelAdapters | Sources/BigSyncKit/QSSynchronizer/CloudKitSynchronizer.swift:332-334 | every registered adapter, once per zone, and nothing else |
| Synchronizer.CloudKitSynchronizer.AddModelAdapter | Sources/BigSyncKit/QSSynchronizer/CloudKitSynchronizer.swift:338-341 | the adapter is registered under its zone, replacing any other; nothing else changes |
| Synchronizer.CloudKitSynchronizer.RemoveModelAdapter | Sources/BigSyncKit/QSSynchronizer/CloudKitSynchronizer.swift:345-347 | whatever is registered under the adapter's zone is dropped; nothing else changes |
| Synchronizer.CloudKitSynchronizer.ResetSyncCaches | Sources/BigSyncKit/QSSynchronizer/CloudKitSynchronizer.swift:222-235 | updates the fields and the thrown error to `OnResetSyncCaches` of the old state and keeps `Valid()` |
| Synchronizer.CloudKitSynchronizer.DropTokens | Sources/BigSyncKit/QSSynchronizer/CloudKitSynchronizer.swift:223-227 | the round is cancelled and the database and active tokens dropped |
| Synchronizer.CloudKitSynchronizer.ResetEach | Sources/BigSyncKit/QSSynchronizer/CloudKitSynchronizer.swift:229-233 | the loop over `modelAdapters` ends as `sequential` over the reset step does |
| Synchronizer.CloudKitSynchronizer.NeedsInitialSetup | Sources/BigSyncKit/QSSynchronizer/CloudKitSynchronizer.swift:351-353 | resets the caches without the adapters, so nothing is thrown |
| Synchronizer.CloudKitSynchronizer.DeleteRecordZone | Sources/BigSyncKit/QSSynchronizer/CloudKitSynchronizer.swift:317-329 | CloudKit's reply is passed on, and the zone's adapter (if registered) drops its token whatever the reply |
| Synchronizer.CloudKitSynchronizer.FinishEach | Sources/BigSyncKit/QSSynchronizer/CloudKitSynchronizer+Sync.swift:35-37 | the loop leaves every adapter finished (`FinishAll`) |
| Synchronizer.CloudKitSynchronizer.PrepareEach | Sources/BigSyncKit/QSSynchronizer/CloudKitSynchronizer+Sync.swift:21-23 | the loop leaves every adapter preparing to import (`PrepareAll`) |
| Synchronizer.CloudKitSynchronizer.RemoveEach | Sources/BigSyncKit/QSSynchronizer/CloudKitSynchronizer+Sync.swift:55-58 | the removal loop leaves no adapter |
| Synchronizer.CloudKitSynchronizer.FinishSynchronization | Sources/BigSyncKit/QSSynchronizer/CloudKitSynchronizer+Sync.swift:29-70 | updates the fields to `Finished` of the old state |
| Synchronizer.CloudKitSynchronizer.CloseRound | Sources/BigSyncKit/QSSynchronizer/CloudKitSynchronizer+Sync.swift:31-42 | active tokens and retries cleared, adapters replaced by the finished ones, both flags lowered |
| Synchronizer.CloudKitSynchronizer.CallCompletion | Sources/BigSyncKit/QSSynchronizer/CloudKitSynchronizer+Sync.swift:43-44 | the block, if any, is called once with the error and dropped |
| Synchronizer.CloudKitSynchronizer.RestartAfterExpiry | Sources/BigSyncKit/QSSynchronizer/CloudKitSynchronizer+Sync.swift:52-59 | the stored token is dropped, no adapter is left and the fetch is scheduled |
| Synchronizer.CloudKitSynchronizer.PerformSynchronization | Sources/BigSyncKit/QSSynchronizer/CloudKitSynchronizer+Sync.swift:13-26 | updates the fields to `Performed` of the old state |
| Synchronizer.CloudKitSynchronizer.ReduceBatchSize | Sources/BigSyncKit/QSSynchronizer/CloudKitSynchronizer+Sync.swift:618-620 | only the batch size changes, to `Halved` of the old one |
| Synchronizer.CloudKitSynchronizer.IncreaseBatchSize | Sources/BigSyncKit/QSSynchronizer/CloudKitSynchronizer+Sync.swift:622-626 | only the batch size changes, to `Increased` of the old one |
| Synchronizer.CloudKitSynchronizer.LoadTokensFor | Sources/BigSyncKit/QSSynchronizer/CloudKitSynchronizer+Sync.swift:101-123 | the loop returns the zones and leaves the adapters and active map that `LoadTokens` describes |
| Synchronizer.CloudKitSynchronizer.FetchCompletedWith | Sources/BigSyncKit/QSSynchronizer/CloudKitSynchronizer+Sync.swift:209-224 | updates the fields to `FetchCompleted` of the old state |
| Synchronizer.CloudKitSynchronizer.UploadFinishedWith | Sources/BigSyncKit/QSSynchronizer/CloudKitSynchronizer+Sync.swift:369-394 | updates the fields to `UploadFinished` of the old state |
| Synchronizer.CloudKitSynchronizer.AdvanceDeletionsFrom | Sources/BigSyncKit/QSSynchronizer/CloudKitSynchronizer+Sync.swift:506-514 | the scan loop updates the fields to `AdvanceDeletions` of the old state |
| Synchronizer.CloudKitSynchronizer.AdvanceRecordsFrom | Sources/BigSyncKit/QSSynchronizer/CloudKitSynchronizer+Sync.swift:408-461 | the scan loop updates the fields to `AdvanceRecords` of the old state |
| Synchronizer.CloudKitSynchronizer.UpdateServerTokenFor | Sources/BigSyncKit/QSSynchronizer/CloudKitSynchronizer+Sync.swift:576-589 | the `hasAllTokens` loop updates the fields to `UpdateServerToken` of the old state |
| Synchronizer.CloudKitSynchronizer.FetchChanges | Sources/BigSyncKit/QSSynchronizer/CloudKitSynchronizer+Sync.swift:200-209 | updates the fields to `OnFetchChanges` of the old state and keeps `Valid()` |
| Synchronizer.CloudKitSynchronizer.DatabaseChangesArrived | Sources/BigSyncKit/QSSynchronizer/CloudKitSynchronizer+Sync.swift:229-248 | updates the fields to `OnDatabaseChanges` of the old state and keeps `Valid()` |
| Synchronizer.CloudKitSynchronizer.FetchZonesOrComplete | Sources/BigSyncKit/QSSynchronizer/CloudKitSynchronizer+Sync.swift:236-248 | with no zone to fetch, the active map is cleared and the fetch completes; otherwise the zones are fetched |
| Synchronizer.CloudKitSynchronizer.NotifyProviderForDeletedZones | Sources/BigSyncKit/QSSynchronizer/CloudKitSynchronizer+Sync.swift:94-99 | the deleted zones are appended, in order, to the notices handed to the provider |
| Synchronizer.CloudKitSynchronizer.ApplyZoneResultsFrom | Sources/BigSyncKit/QSSynchronizer/CloudKitSynchronizer+Sync.swift:273-303 | the loop returns the pending zones and error and leaves the tokens and adapters that `ApplyZoneResults` describes |
| Synchronizer.CloudKitSynchronizer.ZoneChangesArrived | Sources/BigSyncKit/QSSynchronizer/CloudKitSynchronizer+Sync.swift:268-316 | updates the fields to `OnZoneChanges` of the old state and keeps `Valid()` |
| Synchronizer.CloudKitSynchronizer.AdapterSet | Sources/BigSyncKit/QSSynchronizer/CloudKitSynchronizer+Sync.swift:329-334 | the loop returns `MergeQueue`: the active zones that have an adapter, in enumeration order |
| Synchronizer.CloudKitSynchronizer.MergeEach | Sources/BigSyncKit/QSSynchronizer/CloudKitSynchronizer+Sync.swift:336-354 | the loop ends with the state and outcome of `sequential` over the merge step |
| Synchronizer.CloudKitSynchronizer.MergeChanges | Sources/BigSyncKit/QSSynchronizer/CloudKitSynchronizer+Sync.swift:323-337 | updates the fields to `OnMergeChanges` of the old state and keeps `Valid()` |
| Synchronizer.CloudKitSynchronizer.UploadChanges | Sources/BigSyncKit/QSSynchronizer/CloudKitSynchronizer+Sync.swift:361-369 | updates the fields to `OnUploadChanges` of the old state and keeps `Valid()` |
| Synchronizer.CloudKitSynchronizer.ZoneChecked | Sources/BigSyncKit/QSSynchronizer/CloudKitSynchronizer+Sync.swift:432-434 | updates the fields to `OnZoneChecked` of the old state and keeps `Valid()` |
| Synchronizer.CloudKitSynchronizer.ZoneCreated | Sources/BigSyncKit/QSSynchronizer/CloudKitSynchronizer+Sync.swift:436-443 | updates the fields to `OnZoneCreated` of the old state and keeps `Valid()` |
| Synchronizer.CloudKitSynchronizer.DidUploadIn | Sources/BigSyncKit/QSSynchronizer/CloudKitSynchronizer+Sync.swift:477 | only the adapters change, to `UploadedIn` of the old ones |
| Synchronizer.CloudKitSynchronizer.SaveConflictsIn | Sources/BigSyncKit/QSSynchronizer/CloudKitSynchronizer+Sync.swift:483-487 | only the adapters change, to `ConflictsSavedIn` of the old ones |
| Synchronizer.CloudKitSynchronizer.RecordsUploaded | Sources/BigSyncKit/QSSynchronizer/CloudKitSynchronizer+Sync.swift:469-500 | updates the fields to `OnRecordsUploaded` of the old state and keeps `Valid()` |
| Synchronizer.CloudKitSynchronizer.DidDeleteIn | Sources/BigSyncKit/QSSynchronizer/CloudKitSynchronizer+Sync.swift:523 | only the adapters change, to `DeletedIn` of the old ones |
| Synchronizer.CloudKitSynchronizer.DeletionsUploaded | Sources/BigSyncKit/QSSynchronizer/CloudKitSynchronizer+Sync.swift:517-539 | updates the fields to `OnDeletionsUploaded` of the old state and keeps `Valid()` |
| Synchronizer.CloudKitSynchronizer.ReconcileDatabaseArrived | Sources/BigSyncKit/QSSynchronizer/CloudKitSynchronizer+Sync.swift:549-571 | updates the fields to `OnReconcileDatabase` of the old state and keeps `Valid()` |
| Synchronizer.CloudKitSynchronizer.ReconcileEach | Sources/BigSyncKit/QSSynchronizer/CloudKitSynchronizer+Sync.swift:593-607 | the loop returns the pending zones and the refetch flag and leaves the tokens and adapters that `ReconcileResults` describes |
| Synchronizer.CloudKitSynchronizer.ReconcileZonesArrived | Sources/BigSyncKit/QSSynchronizer/CloudKitSynchronizer+Sync.swift:589-614 | updates the fields to `OnReconcileZones` of the old state and keeps `Valid()` |
| Synchronizer.CloudKitSynchronizer.OperationFailed | Sources/BigSyncKit/QSSynchronizer/CloudKitSynchronizer+Sync.swift:83-91 | a failed operation finishes the round with its error, and `Valid()` is kept |

## Findings

| source | as written | input that shows it | evidently intended | confidence | as-written member | corrected member |
|---|---|---|---|---|---|---|
| Sources/BigSyncKit/QSSynchronizer/CloudKitSynchronizer+Sync.swift:279 | a zone result with an error is classified by `isZoneNotFoundOrDeletedError(error)`, where `error` is the loop's local variable, still nil at that point, so every failed zone stops the loop and fails the round | a zone reporting zone-not-found followed by a zone with changes: the round ends with the not-found error and the second zone is never applied (`Tokens.ZoneNotFoundCounterexample`) | classify the zone's own `resultError`: a not-found or deleted zone is reported to the provider and the other zones go on | high, not executed | Tokens.ZoneNotFoundAborts | Tokens.IntendedAppliesOtherZones |
| Sources/BigSyncKit/QSSynchronizer/CloudKitSynchronizer+Sync.swift:54 | after an expired change token, `resetDatabaseToken()` clears only `storedDatabaseToken` and the restart calls `fetchChanges()` directly, whose `fetchDatabaseChanges` sends the in-memory `serverChangeToken` (line 229), still the expired one | a round whose database fetch fails with change-token-expired: the restart sends the same token, a second expiry comes back to the same state, and so on (`Properties.ExpiredTokenRestartRepeats`) | clear the in-memory token too, as `performSynchronization` (line 17) would, so the restart fetches the whole database | medium, not executed | Properties.ExpiredTokenRestartRepeats | Properties.IntendedRestartStartsFromScratch |

## Left out

- `defaultBatchSize` is a public static variable (CloudKitSynchronizer.swift:168) that an app may reassign. The model fixes it at its initial value 400 (`BatchSize.DefaultBatchSize`). Both the initial `batchSize` and the threshold of the ramp read it, so with another value those two move with it; the `Ramp*` lemmas are stated for 400 only.
- The transport is not modelled: the CloudKit operations, the operation queue, `currentOperation` and the `cancel()` of the running operation. Each CloudKit reply is a parameter of an event method. Cancelling the operation is not modelled. Its effect on the engine is the reply or the error that CloudKit then sends, and those events are modelled.
- Concurrency is not modelled: the actors, the detached tasks and the interleavings between the steps of a round. The model runs one event at a time. The entries of `fetchChanges`, `mergeChanges` and the outer `uploadChanges` are separate events, reached from the `FetchPending`, `MergePending` and `UploadPending` steps.
- Notifications, the delegate calls and `debugPrint` are left out. They change no synchronizer state.
- Left out because they live outside the two modelled files: the device identifier and its backup detection, the record metadata added before an upload (`addMetadata`), `compatibilityVersion`, and the key-value store that persists the database token. The stored token is the field `storedDatabaseToken`.
- `eraseLocalMetadata` is commented out in the source and is not modelled.
- `deleteChangeTracking()` on the adapters removed after an expired token is not modelled: it acts only on the adapter's own storage.
- The adapter provider's handling of a deleted zone is not modelled. It is recorded only as a notice in `deletedZoneNotices`.
- Adapters are values registered by zone, without object identity. An adapter that leaves the dictionary while the upload is walking its list is skipped rather than still being called.
- After an expired token, the source's task awaits `fetchChanges()` inside `finishSynchronization`. The model schedules that fetch as the next event of the same synchronizer. It does not model a second chain running beside a new `synchronize` call.
- Public setters (`allowSyncing`, `syncMode`, `batchSize`) are plain field writes and have no operation of their own.
- The persist error of the conflict path in `uploadRecords` is ignored, as in the source, so the model has no parameter for it.
- The ModelAdapter protocol implementation is not part of this model. Its operations are pure functions over an adapter value that holds its token, its dirty records and its deletion markers.
- The records the server rejects as missing are not reported to the adapter, because the source does not do it.
- The deletions operation is not started through `runOperation`, so no error handler is installed on it. An `OperationFailed` event is therefore not accepted while a deletions page is in flight.
