/** The synchronizer's session state and, as functions of it, the effect of
    every operation of the engine: the phase chain fetch, merge, upload,
    token reconciliation and finish, written as one transition per awaited
    reply. The class in `Synchronizer` implements each transition in place;
    the lemmas in `Properties` state what the transitions guarantee. */
module Engine {
  import opened Types
  import opened Errors
  import opened BatchSize
  import opened Adapters
  import opened Tokens
  import opened Runner
  import opened Merge
  import opened Reset

  /** Where the callback chain of a synchronization round is suspended. */
  datatype Step =
    | Idle
      // `fetchChanges` is about to run (its cancellation gate not yet passed)
    | FetchPending
      // the database-changes operation of `fetchChanges` is running
    | FetchingDatabase
      // a zone-changes operation of `fetchZoneChanges` is running for `zones`
    | FetchingZones(zones: seq<ZoneId>, databaseToken: Option<Token>)
      // the fetch succeeded; `mergeChanges` is about to run
    | MergePending(databaseToken: Option<Token>)
      // the outer `uploadChanges` is about to run
    | UploadPending
      // the lookup of the record zone of `queue[index]` is running
    | CheckingZone(queue: seq<ZoneId>, index: nat)
      // the creation of that record zone is running
    | CreatingZone(queue: seq<ZoneId>, index: nat)
      // a page of records of `queue[index]` is being saved
    | UploadingRecords(queue: seq<ZoneId>, index: nat, records: seq<Record>, requested: int)
      // a page of deletions of `queue[index]` is being sent
    | UploadingDeletions(queue: seq<ZoneId>, index: nat, recordIDs: seq<RecordId>, requested: int)
      // the database-changes operation of `updateTokens` is running
    | Reconciling
      // a key-only zone-changes operation of `updateServerToken` is running
    | ReconcilingZones(zones: seq<ZoneId>, databaseToken: Option<Token>)

  /** The steps that walk the upload queue. */
  predicate InUpload(st: Step)
  {
    st.CheckingZone? || st.CreatingZone? || st.UploadingRecords? || st.UploadingDeletions?
  }

  /** The steps that wait on an operation started through `runOperation`,
      whose error handler finishes the round. */
  predicate RunsOperation(st: Step)
  {
    st.FetchingDatabase? || st.FetchingZones? || st.UploadingRecords? || st.Reconciling? || st.ReconcilingZones?
  }

  predicate WellFormed(st: Step)
  {
    InUpload(st) ==> st.index < |st.queue|
  }

  /** The synchronizer's fields, plus the completion calls made so far and
      the deleted-zone notices handed to the adapter provider. */
  datatype Session = Session(
    syncing: bool,
    allowSyncing: bool,
    batchSize: int,
    syncMode: SyncMode,
    adapters: map<ZoneId, Adapter>,           // `modelAdapterDictionary`
    serverChangeToken: Option<Token>,          // the database token of the running round
    storedDatabaseToken: Option<Token>,        // the persisted database token
    activeZoneTokens: map<ZoneId, Token>,
    cancelSync: bool,
    completion: Option<Handle>,
    uploadRetries: int,
    didNotifyUpload: set<ZoneId>,
    forceSaveRecordOnce: bool,
    step: Step,
    delivered: seq<Delivery>,
    deletedZoneNotices: seq<ZoneId>)

  /** The session invariant. */
  ghost predicate ValidSession(s: Session)
  {
    && 0 <= s.uploadRetries <= MaxUploadRetries
    && (s.cancelSync ==> s.syncing)
    && (s.completion.Some? ==> s.syncing)
    && (s.syncing ==> s.step != Idle)
    && KeyedByZone(s.adapters)
    && WellFormed(s.step)
  }

  /** `q` lists every element of `keys` exactly once: a dictionary's iteration order. */
  ghost predicate Enumerates(q: seq<ZoneId>, keys: set<ZoneId>)
  {
    Distinct(q) && forall z :: z in q <==> z in keys
  }

  /** `completion?(error)`: a call of the block, if there is one. */
  function Deliver(h: Option<Handle>, e: Option<Error>): seq<Delivery>
  {
    if h.Some? then [Delivery(h.value, e)] else []
  }

  const CancelledError: Option<Error> := Some(SyncErr(Cancelled))

  // ---------------------------------------------------------------------------
  // Continuations shared by several replies

  /** `finishSynchronization(error:)`. On a change-token-expired CloudKit
      error the stored database token is dropped, every adapter is removed
      and `fetchChanges` runs again; it runs after `syncing` was cleared. */
  function Finished(s: Session, err: Option<Error>): Session
  {
    var done := s.(activeZoneTokens := map[], uploadRetries := 0, adapters := FinishAll(s.adapters),
                   syncing := false, cancelSync := false,
                   delivered := s.delivered + Deliver(s.completion, err), completion := None);
    if IsChangeTokenExpired(err)
    then done.(storedDatabaseToken := None, adapters := map[], step := FetchPending)
    else done.(step := Idle)
  }

  /** `Finished` as the restart after an expired token evidently means it:
      the in-memory database token is cleared with the stored one, so the
      restarted fetch does not send the expired token again. The engine
      itself runs `Finished`, as the code does. */
  function FinishedIntended(s: Session, err: Option<Error>): Session
  {
    var r := Finished(s, err);
    if IsChangeTokenExpired(err) then r.(serverChangeToken := None) else r
  }

  /** `performSynchronization`: the round starts from the stored database token. */
  function Performed(s: Session): Session
  {
    s.(serverChangeToken := s.storedDatabaseToken, uploadRetries := 0, didNotifyUpload := {},
       adapters := PrepareAll(s.adapters), step := FetchPending)
  }

  /** The completion of `fetchDatabaseChanges` as `fetchChanges` handles it. */
  function FetchCompleted(s: Session, token: Option<Token>, err: Option<Error>): Session
  {
    if err.Some? then Finished(s, err)
    else
      var fetched := s.(serverChangeToken := token, storedDatabaseToken := token);
      if s.syncMode == Sync then fetched.(step := UploadPending) else Finished(fetched, None)
  }

  /** The completion of the inner `uploadChanges` as the outer one handles it. */
  function UploadFinished(s: Session, err: Option<Error>): Session
  {
    if err.Some? then
      if ShouldRetryUpload(err.value, s.uploadRetries)
      then s.(uploadRetries := s.uploadRetries + 1, step := FetchPending)
      else Finished(s, err)
    else s.(batchSize := Increased(s.batchSize), step := Reconciling)
  }

  /** Whether the zone's adapter makes `setupZoneAndUploadRecords` wait on
      CloudKit: its zone must be set up (unless that was just done), or it
      has a non-empty page of records to upload. */
  predicate HasRecordsWork(m: map<ZoneId, Adapter>, z: ZoneId, batchSize: int, setupDone: bool)
  {
    z in m && ((NeedsZoneSetup(m[z]) && !setupDone) || RecordsToUpload(m[z], batchSize) != [])
  }

  /** The first position from `i` on where the records pass has to wait;
      every adapter before it completes at once with nil. */
  function NextRecordsWork(queue: seq<ZoneId>, i: nat, setupDone: bool, m: map<ZoneId, Adapter>, batchSize: int): (j: nat)
    requires i <= |queue|
    ensures i <= j <= |queue|
    ensures j < |queue| ==> HasRecordsWork(m, queue[j], batchSize, setupDone && j == i)
    ensures forall k :: i <= k < j ==> !HasRecordsWork(m, queue[k], batchSize, setupDone && k == i)
    decreases |queue| - i
  {
    if i == |queue| then i
    else if HasRecordsWork(m, queue[i], batchSize, setupDone) then i
    else NextRecordsWork(queue, i + 1, false, m, batchSize)
  }

  /** Whether `uploadDeletions` has a non-empty page for the zone's adapter. */
  predicate HasDeletionsWork(m: map<ZoneId, Adapter>, z: ZoneId, batchSize: int)
  {
    z in m && RecordIDsMarkedForDeletion(m[z], batchSize) != []
  }

  function NextDeletionsWork(queue: seq<ZoneId>, i: nat, m: map<ZoneId, Adapter>, batchSize: int): (j: nat)
    requires i <= |queue|
    ensures i <= j <= |queue|
    ensures j < |queue| ==> HasDeletionsWork(m, queue[j], batchSize)
    ensures forall k :: i <= k < j ==> !HasDeletionsWork(m, queue[k], batchSize)
    decreases |queue| - i
  {
    if i == |queue| then i
    else if HasDeletionsWork(m, queue[i], batchSize) then i
    else NextDeletionsWork(queue, i + 1, m, batchSize)
  }

  /** The deletions pass (`sequential` over `uploadDeletions`) from position
      `i`: send the next non-empty page, or complete the upload with nil. */
  function AdvanceDeletions(s: Session, queue: seq<ZoneId>, i: nat): Session
    requires i <= |queue|
  {
    var j := NextDeletionsWork(queue, i, s.adapters, s.batchSize);
    if j == |queue| then UploadFinished(s, None)
    else s.(step := UploadingDeletions(queue, j, RecordIDsMarkedForDeletion(s.adapters[queue[j]], s.batchSize), s.batchSize))
  }

  /** The records pass (`sequential` over `setupZoneAndUploadRecords`) from
      position `i`: look up the next zone that needs setting up, send the next
      non-empty page, or start the deletions pass over the adapters then
      registered, in the order `order` gives their zones. */
  function AdvanceRecords(s: Session, queue: seq<ZoneId>, i: nat, setupDone: bool,
                          order: set<ZoneId> -> seq<ZoneId>): Session
    requires i <= |queue|
  {
    var j := NextRecordsWork(queue, i, setupDone, s.adapters, s.batchSize);
    if j == |queue| then AdvanceDeletions(s, order(s.adapters.Keys), 0)
    else
      var a := s.adapters[queue[j]];
      if NeedsZoneSetup(a) && !(setupDone && j == i) then s.(step := CheckingZone(queue, j))
      else s.(didNotifyUpload := s.didNotifyUpload + {queue[j]},
              step := UploadingRecords(queue, j, RecordsToUpload(a, s.batchSize), s.batchSize))
  }

  /** Every listed zone has an active token. */
  predicate HasAllTokens(zones: seq<ZoneId>, tokens: map<ZoneId, Token>)
  {
    forall z :: z in zones ==> z in tokens
  }

  /** `updateServerToken(for:)`: a listed zone without an active token means
      the round has to start over; otherwise the zones are fetched key-only. */
  function UpdateServerToken(s: Session, zones: seq<ZoneId>, token: Option<Token>): Session
  {
    if !HasAllTokens(zones, s.activeZoneTokens) then Performed(s)
    else s.(step := ReconcilingZones(zones, token))
  }

  // ---------------------------------------------------------------------------
  // Public operations

  /** `synchronize(completion:)`. */
  function OnSynchronize(s: Session, h: Option<Handle>): Session
  {
    if !s.allowSyncing then s.(delivered := s.delivered + Deliver(h, Some(SyncErr(NotAllow))))
    else if s.syncing then s.(delivered := s.delivered + Deliver(h, Some(SyncErr(AlreadySyncing))))
    else Performed(s.(cancelSync := false, syncing := true, completion := h))
  }

  /** `cancelSynchronization()`. */
  function OnCancel(s: Session): Session
  {
    if s.syncing && !s.cancelSync then s.(cancelSync := true) else s
  }

  // ---------------------------------------------------------------------------
  // The replies of the round

  /** `fetchChanges` runs: its cancellation gate, then the database-changes operation. */
  function OnFetchChanges(s: Session): Session
  {
    if s.cancelSync then Finished(s, CancelledError) else s.(step := FetchingDatabase)
  }

  /** The database changes arrive: the deleted zones are reported, the
      changed zones' tokens are loaded (asking the provider for missing
      adapters), and the zones that have an adapter are fetched; with none,
      the fetch completes at once, without a merge. */
  function OnDatabaseChanges(s: Session, token: Option<Token>, changed: seq<ZoneId>, deleted: seq<ZoneId>,
                             provider: ZoneId -> Option<Adapter>): Session
  {
    var loaded := LoadTokens(changed, true, provider, s.adapters);
    var s1 := s.(deletedZoneNotices := s.deletedZoneNotices + deleted,
                 adapters := loaded.adapters, activeZoneTokens := loaded.tokens);
    if |loaded.filtered| == 0 then FetchCompleted(s1.(activeZoneTokens := map[]), token, None)
    else s1.(step := FetchingZones(loaded.filtered, token))
  }

  /** A page of zone changes arrives: the results are applied; zones with more
      coming are fetched again when no zone failed; otherwise the first error
      finishes the round, or the merge follows. */
  function OnZoneChanges(s: Session, results: seq<(ZoneId, ZoneResult)>): Session
    requires s.step.FetchingZones?
  {
    var r := ApplyZoneResults(results, Applied(s.activeZoneTokens, s.adapters, [], None, []));
    var s1 := s.(activeZoneTokens := r.tokens, adapters := r.adapters,
                 deletedZoneNotices := s.deletedZoneNotices + r.deletedNotices);
    if |r.pending| > 0 && r.error.None? then s1.(step := FetchingZones(r.pending, s.step.databaseToken))
    else if r.error.Some? then Finished(s1, r.error)
    else s1.(step := MergePending(s.step.databaseToken))
  }

  /** The adapters `mergeChanges` runs on: those of the zones with an active token. */
  function MergeQueue(s: Session, order: set<ZoneId> -> seq<ZoneId>): seq<ZoneId>
  {
    Filter(order(s.activeZoneTokens.Keys), s.adapters.Keys)
  }

  /** `mergeChanges` runs: its cancellation gate, then `sequential` over the
      adapters with `mergeChangesIntoAdapter`, whose outcome completes the fetch. */
  function OnMergeChanges(s: Session, persist: ZoneId -> Option<Error>, order: set<ZoneId> -> seq<ZoneId>): Session
    requires s.step.MergePending?
  {
    if s.cancelSync then Finished(s, CancelledError)
    else
      var run := Sequential(MergeQueue(s, order), s.adapters, MergeStep(s.activeZoneTokens, persist));
      FetchCompleted(s.(adapters := run.state), s.step.databaseToken, run.outcome)
  }

  /** The outer `uploadChanges` runs: its cancellation gate, then the records
      pass over the registered adapters. */
  function OnUploadChanges(s: Session, order: set<ZoneId> -> seq<ZoneId>): Session
  {
    if s.cancelSync then Finished(s, CancelledError)
    else AdvanceRecords(s, order(s.adapters.Keys), 0, false, order)
  }

  /** The zone lookup of `setupRecordZoneID` replies: a missing zone is
      created; another error ends the pass; otherwise the records follow. */
  function OnZoneChecked(s: Session, err: Option<Error>, order: set<ZoneId> -> seq<ZoneId>): Session
    requires s.step.CheckingZone? && WellFormed(s.step)
  {
    if IsZoneNotFoundOrDeletedError(err) then s.(step := CreatingZone(s.step.queue, s.step.index))
    else if err.Some? then UploadFinished(s, err)
    else AdvanceRecords(s, s.step.queue, s.step.index, true, order)
  }

  /** The zone creation replies. */
  function OnZoneCreated(s: Session, err: Option<Error>, order: set<ZoneId> -> seq<ZoneId>): Session
    requires s.step.CreatingZone? && WellFormed(s.step)
  {
    if err.Some? then UploadFinished(s, err)
    else AdvanceRecords(s, s.step.queue, s.step.index, true, order)
  }

  /** `didUpload(savedRecords:)` on the adapter of zone `z`, if it is registered. */
  function UploadedIn(m: map<ZoneId, Adapter>, z: ZoneId, saved: seq<Record>): (r: map<ZoneId, Adapter>)
    ensures r.Keys == m.Keys && (KeyedByZone(m) ==> KeyedByZone(r))
  {
    if z in m then m[z := DidUpload(m[z], saved)] else m
  }

  /** `saveChanges(in:)` of the conflicting server records, then
      `persistImportedChanges`, on the adapter of zone `z`, if it is registered. */
  function ConflictsSavedIn(m: map<ZoneId, Adapter>, z: ZoneId, conflicted: seq<Record>): (r: map<ZoneId, Adapter>)
    ensures r.Keys == m.Keys && (KeyedByZone(m) ==> KeyedByZone(r))
  {
    if z in m then m[z := PersistImportedChanges(SaveChanges(m[z], conflicted))] else m
  }

  /** `didDelete(recordIDs:)` on the adapter of zone `z`, if it is registered. */
  function DeletedIn(m: map<ZoneId, Adapter>, z: ZoneId, deletedIDs: seq<RecordId>): (r: map<ZoneId, Adapter>)
    ensures r.Keys == m.Keys && (KeyedByZone(m) ==> KeyedByZone(r))
  {
    if z in m then m[z := DidDelete(m[z], deletedIDs)] else m
  }

  /** The provider consulted when adapters must not be loaded: it is never asked. */
  const NoProvider: ZoneId -> Option<Adapter> := _ => None

  /** A page of records was saved, or not: `didUpload` first; a limit error
      halves the batch size, conflicting server records are saved and
      persisted, and either way the error ends the pass; a full page sends
      the same adapter's next page, a short one moves to the next adapter. */
  function OnRecordsUploaded(s: Session, saved: seq<Record>, conflicted: seq<Record>, err: Option<Error>,
                             order: set<ZoneId> -> seq<ZoneId>): Session
    requires s.step.UploadingRecords? && WellFormed(s.step)
  {
    var st := s.step;
    var z := st.queue[st.index];
    var s1 := s.(adapters := UploadedIn(s.adapters, z, saved));
    if err.Some? then
      if IsLimitExceededError(err.value) then UploadFinished(s1.(batchSize := Halved(s1.batchSize)), err)
      else if |conflicted| > 0 then
        UploadFinished(s1.(adapters := ConflictsSavedIn(s1.adapters, z, conflicted)), err)
      else UploadFinished(s1, err)
    else if |st.records| >= st.requested then AdvanceRecords(s1, st.queue, st.index, true, order)
    else AdvanceRecords(s1, st.queue, st.index + 1, false, order)
  }

  /** A page of deletions was sent: `didDelete` first; a limit error halves
      the batch size and, like any error, ends the pass; a full page sends the
      same adapter's next page, a short one moves to the next adapter. */
  function OnDeletionsUploaded(s: Session, deletedIDs: seq<RecordId>, err: Option<Error>): Session
    requires s.step.UploadingDeletions? && WellFormed(s.step)
  {
    var st := s.step;
    var s1 := s.(adapters := DeletedIn(s.adapters, st.queue[st.index], deletedIDs));
    if err.Some? then
      UploadFinished(if IsLimitExceededError(err.value) then s1.(batchSize := Halved(s1.batchSize)) else s1, err)
    else if |st.recordIDs| >= st.requested then AdvanceDeletions(s1, st.queue, st.index)
    else AdvanceDeletions(s1, st.queue, st.index + 1)
  }

  /** The database changes of `updateTokens` arrive: with changed zones, their
      tokens are loaded (without asking the provider) and reconciled;
      without, the round finishes and the database token is not stored. */
  function OnReconcileDatabase(s: Session, token: Option<Token>, changed: seq<ZoneId>, deleted: seq<ZoneId>): Session
  {
    var s1 := s.(deletedZoneNotices := s.deletedZoneNotices + deleted);
    if |changed| > 0 then
      var loaded := LoadTokens(changed, false, NoProvider, s1.adapters);
      UpdateServerToken(s1.(activeZoneTokens := loaded.tokens), loaded.filtered, token)
    else Finished(s1, None)
  }

  /** A page of key-only zone changes arrives: clean zones save their tokens;
      while everything is clean, zones with more coming are fetched again;
      a zone with changes starts the round over; otherwise the database
      token is stored and the round finishes. */
  function OnReconcileZones(s: Session, results: seq<(ZoneId, ZoneResult)>): Session
    requires s.step.ReconcilingZones?
  {
    var r := ReconcileResults(results, Reconciled(s.activeZoneTokens, s.adapters, [], false));
    var s1 := s.(activeZoneTokens := r.tokens, adapters := r.adapters);
    if |r.pending| > 0 && !r.needsToRefetch then UpdateServerToken(s1, r.pending, s.step.databaseToken)
    else if r.needsToRefetch then Performed(s1)
    else Finished(s1.(storedDatabaseToken := s.step.databaseToken), None)
  }

  /** The error handler `runOperation` installs: the round finishes with the error. */
  function OnOperationFailed(s: Session, err: Error): Session
  {
    Finished(s, Some(err))
  }

  /** `resetSyncCaches(includingAdapters:)`: a cancellation request, the
      database token and the active tokens dropped, then, when asked, every
      adapter reset in turn; `forceSaveRecordOnce` is raised unless an
      adapter threw, whose error is returned. */
  function OnResetSyncCaches(s: Session, includingAdapters: bool, fails: ZoneId -> Option<Error>,
                             order: set<ZoneId> -> seq<ZoneId>): (Session, Option<Error>)
  {
    var s1 := OnCancel(s).(storedDatabaseToken := None, activeZoneTokens := map[]);
    if !includingAdapters then (s1.(forceSaveRecordOnce := true), None)
    else
      var run := Sequential(order(s1.adapters.Keys), s1.adapters, ResetStep(fails));
      if run.outcome.Some? then (s1.(adapters := run.state), run.outcome)
      else (s1.(adapters := run.state, forceSaveRecordOnce := true), None)
  }
}
