/** What the engine's transitions guarantee: the session guard, cancellation,
    finishing, the restart on an expired change token, the upload retry
    policy, upload paging, fetch paging, the merge, and token reconciliation. */
module Properties {
  import opened Types
  import opened Errors
  import opened BatchSize
  import opened Adapters
  import opened Tokens
  import opened Runner
  import opened Merge
  import opened Reset
  import opened Engine

  // ---------------------------------------------------------------------------
  // Session guard

  /** With syncing not allowed, `synchronize` reports `.notAllow` to its
      block and changes nothing else. */
  lemma SynchronizeNotAllowed(s: Session, h: Option<Handle>)
    requires !s.allowSyncing
    ensures var r := OnSynchronize(s, h);
            && r.(delivered := s.delivered) == s
            && r.delivered == s.delivered + Deliver(h, Some(SyncErr(NotAllow)))
  {
  }

  /** While a round runs, `synchronize` reports `.alreadySyncing` to its
      block and leaves the running round, its flags and its block alone. */
  lemma SynchronizeWhileSyncing(s: Session, h: Option<Handle>)
    requires s.allowSyncing && s.syncing
    ensures var r := OnSynchronize(s, h);
            && r.(delivered := s.delivered) == s
            && r.syncing && r.cancelSync == s.cancelSync && r.completion == s.completion
            && r.delivered == s.delivered + Deliver(h, Some(SyncErr(AlreadySyncing)))
  {
  }

  /** An accepted `synchronize` opens a round: syncing, not cancelled, the
      block stored, the fetch about to run from the stored database token,
      no retries yet, and every adapter preparing to import. */
  lemma SynchronizeAccepted(s: Session, h: Option<Handle>)
    requires s.allowSyncing && !s.syncing
    ensures var r := OnSynchronize(s, h);
            && r.syncing && !r.cancelSync && r.completion == h
            && r.step == FetchPending
            && r.serverChangeToken == s.storedDatabaseToken
            && r.uploadRetries == 0 && r.didNotifyUpload == {}
            && r.adapters.Keys == s.adapters.Keys
            && (forall z :: z in r.adapters ==> r.adapters[z] == PrepareToImport(s.adapters[z]))
            && r.delivered == s.delivered
  {
  }

  /** At most one round at a time: whatever `synchronize` is called with,
      a round that runs keeps running with the block it was started with. */
  lemma AtMostOneRound(s: Session, h: Option<Handle>)
    requires ValidSession(s) && s.syncing
    ensures OnSynchronize(s, h).completion == s.completion
    ensures OnSynchronize(s, h).step == s.step
  {
  }

  // ---------------------------------------------------------------------------
  // Cancellation

  /** `cancelSynchronization` only ever sets `cancelSync`, and only during a round. */
  lemma CancelOnlyRaisesFlag(s: Session)
    ensures OnCancel(s).(cancelSync := s.cancelSync) == s
    ensures OnCancel(s).cancelSync <==> s.cancelSync || s.syncing
  {
  }

  /** Cancelling twice is cancelling once. */
  lemma CancelIdempotent(s: Session)
    ensures OnCancel(OnCancel(s)) == OnCancel(s)
  {
  }

  // ---------------------------------------------------------------------------
  // Finishing

  /** `finishSynchronization` closes the round: active tokens and retries
      cleared, flags down, the block called once with the error and then
      dropped. An expired change token also drops the stored database token
      and every adapter and schedules a new fetch; any other outcome leaves
      the stored token and the registered zones alone. */
  lemma FinishClosesRound(s: Session, err: Option<Error>)
    ensures var r := Finished(s, err);
            && !r.syncing && !r.cancelSync && r.completion.None?
            && r.activeZoneTokens == map[] && r.uploadRetries == 0
            && r.delivered == s.delivered + Deliver(s.completion, err)
            && r.batchSize == s.batchSize && r.serverChangeToken == s.serverChangeToken
            && (IsChangeTokenExpired(err) ==> r.storedDatabaseToken.None? && r.adapters == map[] && r.step == FetchPending)
            && (!IsChangeTokenExpired(err) ==>
                  && r.storedDatabaseToken == s.storedDatabaseToken && r.step == Idle
                  && r.adapters.Keys == s.adapters.Keys
                  && (forall z :: z in r.adapters ==> r.adapters[z] == DidFinishImport(s.adapters[z])))
  {
  }

  /** The block is called at most once per round: finishing again reports
      nothing more. */
  lemma CompletionCalledOnce(s: Session, e1: Option<Error>, e2: Option<Error>)
    ensures Finished(Finished(s, e1), e2).delivered == Finished(s, e1).delivered
  {
  }

  /** The restart on an expired change token runs with no adapters and no
      stored database token, and outside any round; its fetch is not gated by
      cancellation, but it sends the in-memory database token of the failed
      round, not an empty one. */
  lemma TokenExpiredRestart(s: Session, code: int, items: map<RecordId, int>)
    requires code == ChangeTokenExpired
    ensures var r := Finished(s, Some(CloudKit(code, items)));
            && r.step == FetchPending && r.adapters == map[] && r.storedDatabaseToken.None?
            && !r.syncing
            && OnFetchChanges(r).step == FetchingDatabase
            && OnFetchChanges(r).serverChangeToken == s.serverChangeToken
  {
  }

  /** As written, the restart re-sends the token that just expired. When
      CloudKit rejects it again, the session comes back to exactly the same
      state: the restart repeats without end. */
  lemma ExpiredTokenRestartRepeats(s: Session, code: int, items: map<RecordId, int>)
    requires code == ChangeTokenExpired
    ensures var r1 := OnFetchChanges(Finished(s, Some(CloudKit(code, items))));
            var r2 := OnFetchChanges(OnOperationFailed(r1, CloudKit(code, items)));
            && r1.step == FetchingDatabase && r1.serverChangeToken == s.serverChangeToken
            && r2 == r1
  {
    var r1 := OnFetchChanges(Finished(s, Some(CloudKit(code, items))));
    assert FinishAll(r1.adapters) == map[];
  }

  /** With the in-memory token cleared along with the stored one, the
      restarted fetch asks for the changes of the whole database; every other
      ending of a round is unchanged. */
  lemma IntendedRestartStartsFromScratch(s: Session, err: Option<Error>)
    ensures IsChangeTokenExpired(err) ==>
              var r := OnFetchChanges(FinishedIntended(s, err));
              && r.step == FetchingDatabase && r.serverChangeToken.None? && r.storedDatabaseToken.None?
              && r.adapters == map[] && !r.syncing
    ensures !IsChangeTokenExpired(err) ==> FinishedIntended(s, err) == Finished(s, err)
  {
  }

  /** Only a CloudKit error restarts: an error of another domain with the
      same code finishes the round for good. */
  lemma OtherDomainDoesNotRestart(s: Session, code: int)
    ensures Finished(s, Some(Local(code))).step == Idle
  {
  }

  // ---------------------------------------------------------------------------
  // Cancellation gates

  /** A cancelled round ends at the next phase entry, reporting `.cancelled`. */
  lemma CancellationGates(s: Session, persist: ZoneId -> Option<Error>, order: set<ZoneId> -> seq<ZoneId>)
    requires s.cancelSync
    ensures OnFetchChanges(s) == Finished(s, CancelledError)
    ensures s.step.MergePending? ==> OnMergeChanges(s, persist, order) == Finished(s, CancelledError)
    ensures OnUploadChanges(s, order) == Finished(s, CancelledError)
    ensures var r := Finished(s, CancelledError);
            !r.syncing && r.step == Idle && r.delivered == s.delivered + Deliver(s.completion, CancelledError)
  {
  }

  /** Cancelling a round just before a phase entry ends it there, and the
      round's block learns of it. */
  lemma CancelThenFetchEndsRound(s: Session)
    requires ValidSession(s) && s.syncing && s.step == FetchPending
    ensures var r := OnFetchChanges(OnCancel(s));
            !r.syncing && r.step == Idle && r.delivered == s.delivered + Deliver(s.completion, CancelledError)
  {
  }

  /** Without a cancellation each gate lets its phase run. */
  lemma GatesOpenWithoutCancel(s: Session, order: set<ZoneId> -> seq<ZoneId>)
    requires !s.cancelSync
    ensures OnFetchChanges(s) == s.(step := FetchingDatabase)
    ensures OnUploadChanges(s, order) == AdvanceRecords(s, order(s.adapters.Keys), 0, false, order)
  {
  }

  // ---------------------------------------------------------------------------
  // Upload retry policy and batch size

  /** The end of an upload pass: a failed pass is retried, by fetching again
      within the same round, exactly when `shouldRetryUpload` allows it, and
      otherwise finishes the round with its error; a clean pass grows the
      batch size and moves on to token reconciliation. */
  lemma UploadOutcome(s: Session, err: Option<Error>)
    ensures var r := UploadFinished(s, err);
            && (err.Some? && ShouldRetryUpload(err.value, s.uploadRetries) ==>
                  && r.step == FetchPending && r.uploadRetries == s.uploadRetries + 1
                  && r.syncing == s.syncing && r.completion == s.completion && r.delivered == s.delivered)
            && (err.Some? && !ShouldRetryUpload(err.value, s.uploadRetries) ==>
                  !r.syncing && r.delivered == s.delivered + Deliver(s.completion, err))
            && (err.None? ==> r.batchSize == Increased(s.batchSize) && r.step == Reconciling && r.delivered == s.delivered)
  {
  }

  /** With two retries spent since the round last started, the next failed
      pass ends the round, whatever the error. */
  lemma SpentRetriesEndRound(s: Session, e: Error)
    requires s.uploadRetries == MaxUploadRetries
    ensures !UploadFinished(s, Some(e)).syncing
    ensures UploadFinished(s, Some(e)).delivered == s.delivered + Deliver(s.completion, Some(e))
  {
    NoRetryAtCap(e, s.uploadRetries);
  }

  // ---------------------------------------------------------------------------
  // Upload paging

  /** The deletions pass only ever waits on CloudKit for a non-empty page of
      at most `batchSize` record IDs; adapters with nothing to delete complete
      at once, and a pass with nothing left completes the upload. */
  lemma AdvanceDeletionsWaitsOnlyForWork(s: Session, q: seq<ZoneId>, i: nat)
    requires i <= |q|
    ensures var r := AdvanceDeletions(s, q, i);
            r.adapters == s.adapters && r.delivered == s.delivered && r.syncing == s.syncing
    ensures var r := AdvanceDeletions(s, q, i);
            r.step.UploadingDeletions? || r == UploadFinished(s, None)
    ensures var r := AdvanceDeletions(s, q, i);
            r.step.UploadingDeletions? ==>
              && r.step.queue == q && i <= r.step.index < |q| && q[r.step.index] in s.adapters
              && r.step.recordIDs != [] && r.step.requested == s.batchSize
              && r.step.recordIDs == RecordIDsMarkedForDeletion(s.adapters[q[r.step.index]], s.batchSize)
              && (forall k :: i <= k < r.step.index ==> !HasDeletionsWork(s.adapters, q[k], s.batchSize))
  {
  }

  /** The records pass only ever waits on CloudKit for real work: a zone
      lookup for an adapter whose zone needs setting up, or a non-empty page
      of at most `batchSize` records (reported to the delegate once per
      zone); adapters with nothing to send complete at once. It moves forward
      through its queue, changes no adapter, and at its end hands over to the
      deletions pass over the adapters then registered. */
  lemma AdvanceRecordsWaitsOnlyForWork(s: Session, q: seq<ZoneId>, i: nat, setupDone: bool,
                                       order: set<ZoneId> -> seq<ZoneId>)
    requires i <= |q|
    ensures var r := AdvanceRecords(s, q, i, setupDone, order);
            r.adapters == s.adapters && r.delivered == s.delivered && r.syncing == s.syncing
    ensures var r := AdvanceRecords(s, q, i, setupDone, order);
            r.step.CheckingZone? || r.step.UploadingRecords? || r == AdvanceDeletions(s, order(s.adapters.Keys), 0)
    ensures var r := AdvanceRecords(s, q, i, setupDone, order);
            (r.step.CheckingZone? || r.step.UploadingRecords?) ==>
              && r.step.queue == q && i <= r.step.index < |q| && q[r.step.index] in s.adapters
              && (forall k :: i <= k < r.step.index ==> !HasRecordsWork(s.adapters, q[k], s.batchSize, setupDone && k == i))
    ensures var r := AdvanceRecords(s, q, i, setupDone, order);
            r.step.CheckingZone? ==> NeedsZoneSetup(s.adapters[q[r.step.index]])
    ensures var r := AdvanceRecords(s, q, i, setupDone, order);
            r.step.UploadingRecords? ==>
              && r.step.records != [] && r.step.requested == s.batchSize
              && r.step.records == RecordsToUpload(s.adapters[q[r.step.index]], s.batchSize)
              && q[r.step.index] in r.didNotifyUpload
  {
    var j := NextRecordsWork(q, i, setupDone, s.adapters, s.batchSize);
    var r := AdvanceRecords(s, q, i, setupDone, order);
    if j == |q| {
      assert r == AdvanceDeletions(s, order(s.adapters.Keys), 0);
      AdvanceDeletionsWaitsOnlyForWork(s, order(s.adapters.Keys), 0);
    } else if NeedsZoneSetup(s.adapters[q[j]]) && !(setupDone && j == i) {
      assert r == s.(step := CheckingZone(q, j));
    } else {
      assert r == s.(didNotifyUpload := s.didNotifyUpload + {q[j]},
                     step := UploadingRecords(q, j, RecordsToUpload(s.adapters[q[j]], s.batchSize), s.batchSize));
    }
  }

  /** Two states of an adapter that differ at most in whether an import is
      under way. */
  predicate SameContents(a: Adapter, b: Adapter)
  {
    a.(importing := b.importing) == b
  }

  /** The end of an upload pass leaves every adapter's contents alone, except
      on the restart after an expired token, which drops every adapter. */
  lemma UploadFinishedKeepsContents(s: Session, err: Option<Error>)
    ensures var r := UploadFinished(s, err);
            !IsChangeTokenExpired(err) ==>
              r.adapters.Keys == s.adapters.Keys && forall z :: z in r.adapters ==> SameContents(r.adapters[z], s.adapters[z])
  {
  }

  /** A page of records came back with an error: a limit error halves the
      batch size; any other error leaves it alone. */
  lemma RecordsPageBatchSize(s: Session, saved: seq<Record>, conflicted: seq<Record>, e: Error,
                             order: set<ZoneId> -> seq<ZoneId>)
    requires ValidSession(s) && s.step.UploadingRecords?
    ensures var r := OnRecordsUploaded(s, saved, conflicted, Some(e), order);
            r.batchSize == (if IsLimitExceededError(e) then Halved(s.batchSize) else s.batchSize)
  {
    var z := s.step.queue[s.step.index];
    var s1 := s.(adapters := UploadedIn(s.adapters, z, saved));
    var r := OnRecordsUploaded(s, saved, conflicted, Some(e), order);
    if IsLimitExceededError(e) {
      var s2 := s1.(batchSize := Halved(s1.batchSize));
      assert r == UploadFinished(s2, Some(e));
      FailedUploadPass(s2, e);
    } else if |conflicted| > 0 {
      var s2 := s1.(adapters := ConflictsSavedIn(s1.adapters, z, conflicted));
      assert r == UploadFinished(s2, Some(e));
      FailedUploadPass(s2, e);
    } else {
      assert r == UploadFinished(s1, Some(e));
      FailedUploadPass(s1, e);
    }
  }

  /** A failed upload pass leaves the batch size alone and is either
      retried from the fetch or ends the round. */
  lemma FailedUploadPass(s: Session, e: Error)
    ensures UploadFinished(s, Some(e)).batchSize == s.batchSize
    ensures UploadFinished(s, Some(e)).step == FetchPending || !UploadFinished(s, Some(e)).syncing
  {
  }

  /** A page of records came back with an error: the error ends the pass,
      retried (by fetching again) or reported to the round's block as
      `shouldRetryUpload` decides. */
  lemma RecordsPageFailed(s: Session, saved: seq<Record>, conflicted: seq<Record>, e: Error,
                          order: set<ZoneId> -> seq<ZoneId>)
    requires ValidSession(s) && s.step.UploadingRecords?
    ensures var r := OnRecordsUploaded(s, saved, conflicted, Some(e), order);
            ShouldRetryUpload(e, s.uploadRetries) ==>
              r.step == FetchPending && r.uploadRetries == s.uploadRetries + 1 && r.delivered == s.delivered
    ensures var r := OnRecordsUploaded(s, saved, conflicted, Some(e), order);
            !ShouldRetryUpload(e, s.uploadRetries) ==>
              !r.syncing && r.delivered == s.delivered + Deliver(s.completion, Some(e))
  {
    var z := s.step.queue[s.step.index];
    var s1 := s.(adapters := UploadedIn(s.adapters, z, saved));
    var r := OnRecordsUploaded(s, saved, conflicted, Some(e), order);
    if IsLimitExceededError(e) {
      var s2 := s1.(batchSize := Halved(s1.batchSize));
      assert r == UploadFinished(s2, Some(e));
      UploadOutcome(s2, Some(e));
    } else if |conflicted| > 0 {
      var s2 := s1.(adapters := ConflictsSavedIn(s1.adapters, z, conflicted));
      assert r == UploadFinished(s2, Some(e));
      UploadOutcome(s2, Some(e));
    } else {
      assert r == UploadFinished(s1, Some(e));
      UploadOutcome(s1, Some(e));
    }
  }

  /** What a failed page leaves in its adapter. `didUpload` ran first, so,
      short of the restart on an expired token, the saved records are no
      longer dirty; unless the error was a limit error, the conflicting
      server records were saved into the adapter and persisted. */
  lemma RecordsPageFailedAdapter(s: Session, saved: seq<Record>, conflicted: seq<Record>, e: Error,
                                 order: set<ZoneId> -> seq<ZoneId>)
    requires ValidSession(s) && s.step.UploadingRecords?
    requires s.step.queue[s.step.index] in s.adapters && !IsChangeTokenExpired(Some(e))
    ensures var z := s.step.queue[s.step.index];
            var r := OnRecordsUploaded(s, saved, conflicted, Some(e), order);
            && z in r.adapters && r.adapters[z].dirty == DidUpload(s.adapters[z], saved).dirty
            && (!IsLimitExceededError(e) && |conflicted| > 0 ==>
                  && r.adapters[z].received == s.adapters[z].received + conflicted
                  && r.adapters[z].persists == s.adapters[z].persists + 1)
  {
    var z := s.step.queue[s.step.index];
    var s1 := s.(adapters := UploadedIn(s.adapters, z, saved));
    var r := OnRecordsUploaded(s, saved, conflicted, Some(e), order);
    if IsLimitExceededError(e) {
      var s2 := s1.(batchSize := Halved(s1.batchSize));
      assert r == UploadFinished(s2, Some(e));
      UploadFinishedKeepsContents(s2, Some(e));
    } else if |conflicted| > 0 {
      var s2 := s1.(adapters := ConflictsSavedIn(s1.adapters, z, conflicted));
      assert r == UploadFinished(s2, Some(e));
      UploadFinishedKeepsContents(s2, Some(e));
    } else {
      assert r == UploadFinished(s1, Some(e));
      UploadFinishedKeepsContents(s1, Some(e));
    }
  }

  /** A page of records was saved. The saved records are no longer dirty. A
      full page asks the same adapter for its next page when it has one; a
      short page never returns to that adapter's records. */
  lemma RecordsPageSaved(s: Session, saved: seq<Record>, conflicted: seq<Record>, order: set<ZoneId> -> seq<ZoneId>)
    requires ValidSession(s) && s.step.UploadingRecords?
    ensures var z := s.step.queue[s.step.index];
            var r := OnRecordsUploaded(s, saved, conflicted, None, order);
            z in s.adapters ==> z in r.adapters && r.adapters[z].dirty == DidUpload(s.adapters[z], saved).dirty
    ensures var st := s.step;
            var z := st.queue[st.index];
            var r := OnRecordsUploaded(s, saved, conflicted, None, order);
            |st.records| >= st.requested && z in s.adapters && RecordsToUpload(DidUpload(s.adapters[z], saved), s.batchSize) != [] ==>
              r.step == UploadingRecords(st.queue, st.index, RecordsToUpload(DidUpload(s.adapters[z], saved), s.batchSize), s.batchSize)
    ensures var st := s.step;
            var r := OnRecordsUploaded(s, saved, conflicted, None, order);
            |st.records| < st.requested && (r.step.CheckingZone? || r.step.UploadingRecords?) ==>
              r.step.queue == st.queue && r.step.index > st.index
  {
    var st := s.step;
    var z := st.queue[st.index];
    var s1 := s.(adapters := UploadedIn(s.adapters, z, saved));
    var dq := order(s1.adapters.Keys);
    AdvanceDeletionsWaitsOnlyForWork(s1, dq, 0);
    UploadFinishedKeepsContents(s1, None);
    var r := OnRecordsUploaded(s, saved, conflicted, None, order);
    if |st.records| >= st.requested {
      assert r == AdvanceRecords(s1, st.queue, st.index, true, order);
      AdvanceRecordsWaitsOnlyForWork(s1, st.queue, st.index, true, order);
    } else {
      assert r == AdvanceRecords(s1, st.queue, st.index + 1, false, order);
      AdvanceRecordsWaitsOnlyForWork(s1, st.queue, st.index + 1, false, order);
    }
  }

  /** A page of deletions came back with an error: a limit error halves the
      batch size and, like any error, ends the pass, retried or reported. */
  lemma DeletionsPageFailed(s: Session, deletedIDs: seq<RecordId>, e: Error)
    requires ValidSession(s) && s.step.UploadingDeletions?
    ensures var r := OnDeletionsUploaded(s, deletedIDs, Some(e));
            && r.batchSize == (if IsLimitExceededError(e) then Halved(s.batchSize) else s.batchSize)
            && (r.step == FetchPending || !r.syncing)
  {
    var st := s.step;
    var s1 := s.(adapters := DeletedIn(s.adapters, st.queue[st.index], deletedIDs));
    var s2 := if IsLimitExceededError(e) then s1.(batchSize := Halved(s1.batchSize)) else s1;
    assert OnDeletionsUploaded(s, deletedIDs, Some(e)) == UploadFinished(s2, Some(e));
    FailedUploadPass(s2, e);
  }

  /** `didDelete` ran before the error was looked at, so, short of the
      restart on an expired token, the IDs the server deleted are no longer
      marked in the page's adapter. */
  lemma DeletionsPageFailedAdapter(s: Session, deletedIDs: seq<RecordId>, e: Error)
    requires ValidSession(s) && s.step.UploadingDeletions?
    ensures var z := s.step.queue[s.step.index];
            var r := OnDeletionsUploaded(s, deletedIDs, Some(e));
            z in s.adapters && !IsChangeTokenExpired(Some(e)) ==>
              z in r.adapters && r.adapters[z].tombstones == DidDelete(s.adapters[z], deletedIDs).tombstones
  {
    var st := s.step;
    var s1 := s.(adapters := DeletedIn(s.adapters, st.queue[st.index], deletedIDs));
    var s2 := if IsLimitExceededError(e) then s1.(batchSize := Halved(s1.batchSize)) else s1;
    assert OnDeletionsUploaded(s, deletedIDs, Some(e)) == UploadFinished(s2, Some(e));
    UploadFinishedKeepsContents(s2, Some(e));
  }

  /** A page of deletions was accepted: the sent IDs are no longer marked,
      a full page asks the same adapter for its next page when it has one,
      and a short page moves on to a later adapter. */
  lemma DeletionsPageSent(s: Session, deletedIDs: seq<RecordId>)
    requires ValidSession(s) && s.step.UploadingDeletions?
    ensures var z := s.step.queue[s.step.index];
            var r := OnDeletionsUploaded(s, deletedIDs, None);
            z in s.adapters ==>
              z in r.adapters && r.adapters[z].tombstones == DidDelete(s.adapters[z], deletedIDs).tombstones
    ensures var st := s.step;
            var z := st.queue[st.index];
            var r := OnDeletionsUploaded(s, deletedIDs, None);
            |st.recordIDs| >= st.requested && z in s.adapters &&
            RecordIDsMarkedForDeletion(DidDelete(s.adapters[z], deletedIDs), s.batchSize) != [] ==>
              r.step == UploadingDeletions(st.queue, st.index,
                                           RecordIDsMarkedForDeletion(DidDelete(s.adapters[z], deletedIDs), s.batchSize), s.batchSize)
    ensures var st := s.step;
            var r := OnDeletionsUploaded(s, deletedIDs, None);
            |st.recordIDs| < st.requested && r.step.UploadingDeletions? ==>
              r.step.queue == st.queue && r.step.index > st.index
  {
    var st := s.step;
    var s1 := s.(adapters := DeletedIn(s.adapters, st.queue[st.index], deletedIDs));
    var r := OnDeletionsUploaded(s, deletedIDs, None);
    UploadFinishedKeepsContents(s1, None);
    if |st.recordIDs| >= st.requested {
      assert r == AdvanceDeletions(s1, st.queue, st.index);
      AdvanceDeletionsWaitsOnlyForWork(s1, st.queue, st.index);
    } else {
      assert r == AdvanceDeletions(s1, st.queue, st.index + 1);
      AdvanceDeletionsWaitsOnlyForWork(s1, st.queue, st.index + 1);
    }
  }

  /** The zone lookup: a missing zone is created before any record is sent;
      any other error ends the pass; otherwise the adapter's records follow,
      its setup counted as done. */
  lemma ZoneCheckedOutcome(s: Session, err: Option<Error>, order: set<ZoneId> -> seq<ZoneId>)
    requires ValidSession(s) && s.step.CheckingZone?
    ensures var r := OnZoneChecked(s, err, order);
            IsZoneNotFoundOrDeletedError(err) ==> r == s.(step := CreatingZone(s.step.queue, s.step.index))
    ensures var r := OnZoneChecked(s, err, order);
            err.Some? && !IsZoneNotFoundOrDeletedError(err) ==> r.step == FetchPending || !r.syncing
    ensures var st := s.step;
            var r := OnZoneChecked(s, err, order);
            var z := st.queue[st.index];
            err.None? && z in s.adapters && RecordsToUpload(s.adapters[z], s.batchSize) != [] ==>
              r.step == UploadingRecords(st.queue, st.index, RecordsToUpload(s.adapters[z], s.batchSize), s.batchSize)
  {
    if err.None? {
      AdvanceRecordsWaitsOnlyForWork(s, s.step.queue, s.step.index, true, order);
    }
  }

  // ---------------------------------------------------------------------------
  // Fetch paging

  /** A page of zone changes with a failed zone: that zone's error finishes
      the round, and no zone is reported deleted. */
  lemma ZoneChangesFailed(s: Session, results: seq<(ZoneId, ZoneResult)>)
    requires s.step.FetchingZones? && FirstFailure(results) < |results|
    ensures var r := OnZoneChanges(s, results);
            && !r.syncing && r.delivered == s.delivered + Deliver(s.completion, results[FirstFailure(results)].1.error)
            && r.deletedZoneNotices == s.deletedZoneNotices
  {
    var acc := Applied(s.activeZoneTokens, s.adapters, [], None, []);
    var a := ApplyZoneResults(results, acc);
    ApplyZoneResultsOutcome(results, acc);
    var s1 := s.(activeZoneTokens := a.tokens, adapters := a.adapters,
                 deletedZoneNotices := s.deletedZoneNotices + a.deletedNotices);
    assert a.error == results[FirstFailure(results)].1.error && a.deletedNotices == [];
    assert OnZoneChanges(s, results) == Finished(s1, a.error);
    FinishClosesRound(s1, a.error);
  }

  /** A page of zone changes with no failed zone: the zones reporting more
      coming are fetched again, in order, and once none does the merge
      follows, with the same database token. */
  lemma ZoneChangesComplete(s: Session, results: seq<(ZoneId, ZoneResult)>)
    requires s.step.FetchingZones? && FirstFailure(results) == |results|
    ensures var r := OnZoneChanges(s, results);
            && (MoreComing(results) != [] ==> r.step == FetchingZones(MoreComing(results), s.step.databaseToken))
            && (MoreComing(results) == [] ==> r.step == MergePending(s.step.databaseToken))
            && r.syncing == s.syncing && r.delivered == s.delivered
            && r.deletedZoneNotices == s.deletedZoneNotices
  {
    var acc := Applied(s.activeZoneTokens, s.adapters, [], None, []);
    var a := ApplyZoneResults(results, acc);
    ApplyZoneResultsOutcome(results, acc);
    assert results[..|results|] == results;
    assert a.pending == MoreComing(results) && a.error.None? && a.deletedNotices == [];
    var s1 := s.(activeZoneTokens := a.tokens, adapters := a.adapters,
                 deletedZoneNotices := s.deletedZoneNotices + a.deletedNotices);
    if |a.pending| > 0 {
      assert OnZoneChanges(s, results) == s1.(step := FetchingZones(a.pending, s.step.databaseToken));
    } else {
      assert OnZoneChanges(s, results) == s1.(step := MergePending(s.step.databaseToken));
    }
  }

  /** With no failed zone, each reported zone's token becomes active (absent
      when nil) and its adapter, if registered, receives the downloaded and
      the deleted records. */
  lemma ZoneChangesApplied(s: Session, results: seq<(ZoneId, ZoneResult)>, i: nat)
    requires s.step.FetchingZones? && DistinctZones(results)
    requires FirstFailure(results) == |results| && i < |results|
    ensures var r := OnZoneChanges(s, results);
            var (z, res) := results[i];
            && (z in r.activeZoneTokens <==> res.serverChangeToken.Some?)
            && (z in r.activeZoneTokens ==> r.activeZoneTokens[z] == res.serverChangeToken.value)
            && (z in r.adapters <==> z in s.adapters)
            && (z in s.adapters ==> r.adapters[z] == DeleteRecords(SaveChanges(s.adapters[z], res.downloadedRecords), res.deletedRecordIDs))
  {
    var acc := Applied(s.activeZoneTokens, s.adapters, [], None, []);
    ApplyZoneResultsOutcome(results, acc);
    ApplyZoneResultsApplied(results, acc, i);
  }

  /** With no failed zone, a zone the page does not report keeps its active
      token and its adapter. */
  lemma ZoneChangesUntouched(s: Session, results: seq<(ZoneId, ZoneResult)>, y: ZoneId)
    requires s.step.FetchingZones? && FirstFailure(results) == |results|
    requires forall i :: 0 <= i < |results| ==> results[i].0 != y
    ensures var r := OnZoneChanges(s, results);
            && (y in r.activeZoneTokens <==> y in s.activeZoneTokens)
            && (y in r.activeZoneTokens ==> r.activeZoneTokens[y] == s.activeZoneTokens[y])
            && (y in r.adapters <==> y in s.adapters)
            && (y in r.adapters ==> r.adapters[y] == s.adapters[y])
  {
    var acc := Applied(s.activeZoneTokens, s.adapters, [], None, []);
    ApplyZoneResultsOutcome(results, acc);
    ApplyZoneResultsUntouched(results, acc, y);
  }

  // ---------------------------------------------------------------------------
  // The merge

  /** The merge runs over the adapters of the zones with an active token,
      each once. */
  lemma MergeQueueIsActiveAdapters(s: Session, order: set<ZoneId> -> seq<ZoneId>)
    requires Enumerates(order(s.activeZoneTokens.Keys), s.activeZoneTokens.Keys)
    ensures Distinct(MergeQueue(s, order))
    ensures forall z :: z in MergeQueue(s, order) <==> z in s.activeZoneTokens && z in s.adapters
  {
    FilterDistinct(order(s.activeZoneTokens.Keys), s.adapters.Keys);
  }

  /** The outcome of `mergeChanges`. A failed merge finishes the round with
      its error and does not store the fetched database token. A complete
      merge stores it, and leaves every merged adapter with its changes
      committed and its zone's active token saved; the upload follows in
      `.sync` mode, and the round ends in `.downloadOnly`. */
  lemma MergeOutcome(s: Session, persist: ZoneId -> Option<Error>, order: set<ZoneId> -> seq<ZoneId>)
    requires ValidSession(s) && s.step.MergePending? && !s.cancelSync
    requires Enumerates(order(s.activeZoneTokens.Keys), s.activeZoneTokens.Keys)
    ensures var run := Sequential(MergeQueue(s, order), s.adapters, MergeStep(s.activeZoneTokens, persist));
            var r := OnMergeChanges(s, persist, order);
            run.outcome.Some? ==>
              && !r.syncing && r.delivered == s.delivered + Deliver(s.completion, run.outcome)
              && (!IsChangeTokenExpired(run.outcome) ==> r.storedDatabaseToken == s.storedDatabaseToken)
    ensures var run := Sequential(MergeQueue(s, order), s.adapters, MergeStep(s.activeZoneTokens, persist));
            var r := OnMergeChanges(s, persist, order);
            run.outcome.None? ==>
              && r.storedDatabaseToken == s.step.databaseToken && r.serverChangeToken == s.step.databaseToken
              && (r.step == UploadPending <==> s.syncMode == Sync)
              && (s.syncMode == DownloadOnly ==> !r.syncing && r.delivered == s.delivered + Deliver(s.completion, None))
              && r.adapters.Keys == s.adapters.Keys
              && (forall z :: z in s.activeZoneTokens && z in s.adapters ==>
                    SameContents(r.adapters[z], Merged(s.activeZoneTokens, s.adapters[z])))
  {
    var zs := MergeQueue(s, order);
    MergeQueueIsActiveAdapters(s, order);
    MergeResult(s.activeZoneTokens, persist, zs, s.adapters);
  }
  /** After a complete merge, every adapter of an active zone holds exactly
      the token `activeZoneToken` gives for its zone. */
  lemma MergeSavesActiveToken(s: Session, persist: ZoneId -> Option<Error>, order: set<ZoneId> -> seq<ZoneId>, z: ZoneId)
    requires ValidSession(s) && s.step.MergePending? && !s.cancelSync
    requires Enumerates(order(s.activeZoneTokens.Keys), s.activeZoneTokens.Keys)
    requires Sequential(MergeQueue(s, order), s.adapters, MergeStep(s.activeZoneTokens, persist)).outcome.None?
    requires z in s.activeZoneTokens && z in s.adapters
    ensures var r := OnMergeChanges(s, persist, order);
            z in r.adapters && r.adapters[z].serverChangeToken == ActiveToken(s.activeZoneTokens, z)
  {
    MergeOutcome(s, persist, order);
    assert s.adapters[z].recordZoneID == z;
  }


  /** In `.downloadOnly` mode nothing is ever uploaded: neither a fetch that
      finds nothing nor a merge leads to the upload phase. */
  lemma DownloadOnlyNeverUploads(s: Session, token: Option<Token>, changed: seq<ZoneId>, deleted: seq<ZoneId>,
                                 provider: ZoneId -> Option<Adapter>, persist: ZoneId -> Option<Error>,
                                 order: set<ZoneId> -> seq<ZoneId>)
    requires s.syncMode == DownloadOnly
    ensures OnDatabaseChanges(s, token, changed, deleted, provider).step != UploadPending
    ensures s.step.MergePending? ==> OnMergeChanges(s, persist, order).step != UploadPending
  {
    var loaded := LoadTokens(changed, true, provider, s.adapters);
    var s1 := s.(deletedZoneNotices := s.deletedZoneNotices + deleted,
                 adapters := loaded.adapters, activeZoneTokens := loaded.tokens);
    if |loaded.filtered| == 0 {
      assert OnDatabaseChanges(s, token, changed, deleted, provider) == FetchCompleted(s1.(activeZoneTokens := map[]), token, None);
      FetchCompletedClean(s1.(activeZoneTokens := map[]), token);
    }
    if s.step.MergePending? {
      if s.cancelSync {
        FinishClosesRound(s, CancelledError);
      } else {
        var run := Sequential(MergeQueue(s, order), s.adapters, MergeStep(s.activeZoneTokens, persist));
        var merged := s.(adapters := run.state);
        assert OnMergeChanges(s, persist, order) == FetchCompleted(merged, s.step.databaseToken, run.outcome);
        if run.outcome.Some? {
          FinishClosesRound(merged, run.outcome);
        } else {
          FetchCompletedClean(merged, s.step.databaseToken);
        }
      }
    }
  }

  // ---------------------------------------------------------------------------
  // Database changes

  /** The database changes of a fetch, when some changed zone has an adapter
      (registered, or supplied by the provider): every deleted zone is
      reported, and those zones are fetched, in the order reported, with
      their adapters' tokens active. */
  lemma DatabaseChangesFetch(s: Session, token: Option<Token>, changed: seq<ZoneId>, deleted: seq<ZoneId>,
                             provider: ZoneId -> Option<Adapter>)
    requires LoadTokens(changed, true, provider, s.adapters).filtered != []
    ensures var r := OnDatabaseChanges(s, token, changed, deleted, provider);
            && r.deletedZoneNotices == s.deletedZoneNotices + deleted
            && r.step == FetchingZones(Filter(changed, r.adapters.Keys), token)
            && (forall z :: z in r.activeZoneTokens <==> z in changed && z in r.adapters && r.adapters[z].serverChangeToken.Some?)
            && (forall z :: z in r.activeZoneTokens ==> r.activeZoneTokens[z] == r.adapters[z].serverChangeToken.value)
  {
    var loaded := LoadTokens(changed, true, provider, s.adapters);
    LoadTokensResult(changed, true, provider, s.adapters);
    var s1 := s.(deletedZoneNotices := s.deletedZoneNotices + deleted,
                 adapters := loaded.adapters, activeZoneTokens := loaded.tokens);
    assert OnDatabaseChanges(s, token, changed, deleted, provider) == s1.(step := FetchingZones(loaded.filtered, token));
  }

  /** The database changes of a fetch, when no changed zone has an adapter:
      every deleted zone is reported and the fetch completes at once, without
      a merge: the database token is stored and no zone token stays active. */
  lemma DatabaseChangesNothingToFetch(s: Session, token: Option<Token>, changed: seq<ZoneId>, deleted: seq<ZoneId>,
                                      provider: ZoneId -> Option<Adapter>)
    requires LoadTokens(changed, true, provider, s.adapters).filtered == []
    ensures var r := OnDatabaseChanges(s, token, changed, deleted, provider);
            && r.deletedZoneNotices == s.deletedZoneNotices + deleted
            && r.storedDatabaseToken == token && r.serverChangeToken == token && r.activeZoneTokens == map[]
            && (r.step == UploadPending <==> s.syncMode == Sync)
  {
    var loaded := LoadTokens(changed, true, provider, s.adapters);
    var s1 := s.(deletedZoneNotices := s.deletedZoneNotices + deleted,
                 adapters := loaded.adapters, activeZoneTokens := loaded.tokens);
    assert OnDatabaseChanges(s, token, changed, deleted, provider) == FetchCompleted(s1.(activeZoneTokens := map[]), token, None);
    FetchCompletedClean(s1.(activeZoneTokens := map[]), token);
  }

  /** A fetch that completes without error stores the database token it
      reached; in `.sync` mode the upload follows, otherwise the round ends. */
  lemma FetchCompletedClean(s: Session, token: Option<Token>)
    ensures var r := FetchCompleted(s, token, None);
            && r.deletedZoneNotices == s.deletedZoneNotices
            && r.storedDatabaseToken == token && r.serverChangeToken == token
            && (s.activeZoneTokens == map[] ==> r.activeZoneTokens == map[])
            && (r.step == UploadPending <==> s.syncMode == Sync)
  {
    var fetched := s.(serverChangeToken := token, storedDatabaseToken := token);
    if s.syncMode != Sync {
      assert FetchCompleted(s, token, None) == Finished(fetched, None);
      FinishClosesRound(fetched, None);
    }
  }

  /** An adapter the database changes bring in is the provider's, preparing
      to import; registered adapters are kept as they are. */
  lemma DatabaseChangesAdapters(s: Session, token: Option<Token>, changed: seq<ZoneId>, deleted: seq<ZoneId>,
                                provider: ZoneId -> Option<Adapter>)
    requires s.syncMode == Sync
    ensures var r := OnDatabaseChanges(s, token, changed, deleted, provider);
            && (forall z :: z in s.adapters ==> z in r.adapters && r.adapters[z] == s.adapters[z])
            && (forall z :: z in r.adapters && z !in s.adapters ==>
                  z in changed && provider(z).Some? && r.adapters[z] == PrepareToImport(provider(z).value))
  {
    var loaded := LoadTokens(changed, true, provider, s.adapters);
    LoadTokensResult(changed, true, provider, s.adapters);
    var s1 := s.(deletedZoneNotices := s.deletedZoneNotices + deleted,
                 adapters := loaded.adapters, activeZoneTokens := loaded.tokens);
    var r := OnDatabaseChanges(s, token, changed, deleted, provider);
    if |loaded.filtered| == 0 {
      assert r == FetchCompleted(s1.(activeZoneTokens := map[]), token, None);
      assert r.adapters == s1.adapters;
    } else {
      assert r == s1.(step := FetchingZones(loaded.filtered, token));
    }
  }

  // ---------------------------------------------------------------------------
  // Token reconciliation

  /** `updateServerToken(for:)` starts the round over exactly when a listed
      zone has no active token; the restart runs from the stored database
      token, within the same round and with the same block. */
  lemma UpdateServerTokenRefetchIffMissing(s: Session, zones: seq<ZoneId>, token: Option<Token>)
    ensures var r := UpdateServerToken(s, zones, token);
            (r.step == FetchPending <==> exists z :: z in zones && z !in s.activeZoneTokens)
    ensures var r := UpdateServerToken(s, zones, token);
            r.step == FetchPending ==>
              && r.serverChangeToken == s.storedDatabaseToken && r.uploadRetries == 0
              && r.syncing == s.syncing && r.completion == s.completion && r.delivered == s.delivered
    ensures var r := UpdateServerToken(s, zones, token);
            r.step != FetchPending ==> r == s.(step := ReconcilingZones(zones, token))
  {
  }

  /** The database changes of `updateTokens`: with no changed zone the round
      finishes and the database token is not stored; with some, no adapter is
      loaded and the database token is not stored yet. */
  lemma ReconcileDatabaseOutcome(s: Session, token: Option<Token>, changed: seq<ZoneId>, deleted: seq<ZoneId>)
    ensures var r := OnReconcileDatabase(s, token, changed, deleted);
            r.deletedZoneNotices == s.deletedZoneNotices + deleted
    ensures var r := OnReconcileDatabase(s, token, changed, deleted);
            changed == [] ==>
              && !r.syncing && r.storedDatabaseToken == s.storedDatabaseToken
              && r.delivered == s.delivered + Deliver(s.completion, None)
    ensures var r := OnReconcileDatabase(s, token, changed, deleted);
            changed != [] ==>
              && r.storedDatabaseToken == s.storedDatabaseToken && r.syncing == s.syncing
              && r.adapters.Keys == s.adapters.Keys
              && (r.step == FetchPending || r.step.ReconcilingZones?)
  {
    var s1 := s.(deletedZoneNotices := s.deletedZoneNotices + deleted);
    if |changed| > 0 {
      var loaded := LoadTokens(changed, false, NoProvider, s1.adapters);
      LoadTokensKeepsAdapters(changed, NoProvider, Loaded([], map[], s1.adapters));
      assert OnReconcileDatabase(s, token, changed, deleted) ==
             UpdateServerToken(s1.(activeZoneTokens := loaded.tokens), loaded.filtered, token);
    }
  }

  /** The key-only zone changes of `updateServerToken` when a zone has
      deltas: the local data is stale, so the round starts over, within the
      same round and block, without storing anything, and with the retry
      counter back at zero. */
  lemma ReconcileZonesStale(s: Session, results: seq<(ZoneId, ZoneResult)>)
    requires s.step.ReconcilingZones?
    requires exists i :: 0 <= i < |results| && HasDeltas(results[i].1)
    ensures var r := OnReconcileZones(s, results);
            && r.step == FetchPending && r.storedDatabaseToken == s.storedDatabaseToken
            && r.serverChangeToken == s.storedDatabaseToken
            && r.syncing == s.syncing && r.completion == s.completion && r.delivered == s.delivered
            && r.uploadRetries == 0
  {
    var acc := Reconciled(s.activeZoneTokens, s.adapters, [], false);
    var a := ReconcileResults(results, acc);
    ReconcileNeedsAndPending(results, acc);
    assert a.needsToRefetch;
    var s1 := s.(activeZoneTokens := a.tokens, adapters := a.adapters);
    assert OnReconcileZones(s, results) == Performed(s1);
  }

  /** The cap of two retries holds between two starts of the round, not over
      the whole round: after both retries are spent, a restart from the
      reconciliation keeps the round and its block running and a further
      conflict on upload is retried again. */
  lemma RetryBudgetRenewedByReconcile(s: Session, results: seq<(ZoneId, ZoneResult)>)
    requires s.step.ReconcilingZones? && s.syncing && s.uploadRetries == MaxUploadRetries
    requires exists i :: 0 <= i < |results| && HasDeltas(results[i].1)
    ensures var r := OnReconcileZones(s, results);
            && r.syncing && r.completion == s.completion && r.uploadRetries == 0
            && var u := UploadFinished(r, Some(CloudKit(ServerRecordChanged, map[])));
               u.step == FetchPending && u.uploadRetries == 1 && u.syncing && u.completion == s.completion
  {
    ReconcileZonesStale(s, results);
  }

  /** The key-only zone changes of `updateServerToken` when every zone is
      clean and none has more coming: the database token is stored and the
      round finishes. */
  lemma ReconcileZonesDone(s: Session, results: seq<(ZoneId, ZoneResult)>)
    requires s.step.ReconcilingZones?
    requires forall i :: 0 <= i < |results| ==> !HasDeltas(results[i].1)
    requires MoreComing(results) == []
    ensures var r := OnReconcileZones(s, results);
            && r.storedDatabaseToken == s.step.databaseToken && !r.syncing
            && r.delivered == s.delivered + Deliver(s.completion, None)
  {
    var acc := Reconciled(s.activeZoneTokens, s.adapters, [], false);
    var a := ReconcileResults(results, acc);
    ReconcileNeedsAndPending(results, acc);
    assert !a.needsToRefetch && a.pending == [];
    var s1 := s.(activeZoneTokens := a.tokens, adapters := a.adapters);
    assert OnReconcileZones(s, results) == Finished(s1.(storedDatabaseToken := s.step.databaseToken), None);
  }

  /** The key-only zone changes of `updateServerToken` when every zone is
      clean but some have more coming: those zones are fetched again (or the
      round starts over when one lacks a token), and the database token is
      not stored yet. */
  lemma ReconcileZonesMoreComing(s: Session, results: seq<(ZoneId, ZoneResult)>)
    requires s.step.ReconcilingZones?
    requires forall i :: 0 <= i < |results| ==> !HasDeltas(results[i].1)
    requires MoreComing(results) != []
    ensures var r := OnReconcileZones(s, results);
            && r.storedDatabaseToken == s.storedDatabaseToken && r.syncing == s.syncing
            && (r.step == ReconcilingZones(MoreComing(results), s.step.databaseToken) || r.step == FetchPending)
  {
    var acc := Reconciled(s.activeZoneTokens, s.adapters, [], false);
    var a := ReconcileResults(results, acc);
    ReconcileNeeds(results, acc);
    ReconcilePending(results, acc);
    assert !a.needsToRefetch && a.pending == MoreComing(results);
    var s1 := s.(activeZoneTokens := a.tokens, adapters := a.adapters);
    assert OnReconcileZones(s, results) == UpdateServerToken(s1, a.pending, s.step.databaseToken);
    if HasAllTokens(a.pending, s1.activeZoneTokens) {
      assert UpdateServerToken(s1, a.pending, s.step.databaseToken) == s1.(step := ReconcilingZones(a.pending, s.step.databaseToken));
    } else {
      assert UpdateServerToken(s1, a.pending, s.step.databaseToken) == Performed(s1);
    }
  }

  /** What reconciliation leaves in a reported zone's adapter, short of the
      round restarting: a clean zone's adapter saves the token the zone
      reported; a zone with deltas keeps the token its adapter had. */
  lemma ReconcileZonesAdapterToken(s: Session, results: seq<(ZoneId, ZoneResult)>, i: nat)
    requires s.step.ReconcilingZones? && DistinctZones(results)
    requires i < |results| && results[i].0 in s.adapters
    ensures var r := OnReconcileZones(s, results);
            var z := results[i].0;
            && z in r.adapters
            && (!HasDeltas(results[i].1) ==> r.adapters[z].serverChangeToken == results[i].1.serverChangeToken)
            && (HasDeltas(results[i].1) ==> r.adapters[z].serverChangeToken == s.adapters[z].serverChangeToken)
  {
    var acc := Reconciled(s.activeZoneTokens, s.adapters, [], false);
    var a := ReconcileResults(results, acc);
    ReconcilePending(results, acc);
    var z := results[i].0;
    if HasDeltas(results[i].1) {
      forall k | 0 <= k < |results| && !HasDeltas(results[k].1) ensures results[k].0 != z {
      }
      ReconcileUntouched(results, acc, z);
    } else {
      ReconcileCleanZoneSaved(results, acc, i);
    }
    ReconcileZonesKeepsTokens(s, results, z);
  }

  /** Whatever follows the reconciliation, each adapter keeps the token the
      reconciliation left it. */
  lemma ReconcileZonesKeepsTokens(s: Session, results: seq<(ZoneId, ZoneResult)>, z: ZoneId)
    requires s.step.ReconcilingZones?
    ensures var a := ReconcileResults(results, Reconciled(s.activeZoneTokens, s.adapters, [], false));
            var r := OnReconcileZones(s, results);
            z in a.adapters ==> z in r.adapters && r.adapters[z].serverChangeToken == a.adapters[z].serverChangeToken
  {
    var a := ReconcileResults(results, Reconciled(s.activeZoneTokens, s.adapters, [], false));
    var s1 := s.(activeZoneTokens := a.tokens, adapters := a.adapters);
    var r := OnReconcileZones(s, results);
    if |a.pending| > 0 && !a.needsToRefetch {
      assert r == UpdateServerToken(s1, a.pending, s.step.databaseToken);
      if HasAllTokens(a.pending, s1.activeZoneTokens) {
        assert r.adapters == a.adapters;
      } else {
        assert r.adapters == PrepareAll(a.adapters);
      }
    } else if a.needsToRefetch {
      assert r.adapters == PrepareAll(a.adapters);
    } else {
      assert r == Finished(s1.(storedDatabaseToken := s.step.databaseToken), None);
      assert r.adapters == FinishAll(a.adapters);
    }
  }

  // ---------------------------------------------------------------------------
  // Resetting the caches

  /** `resetSyncCaches` asks a running round to cancel and drops the database
      token and the active tokens. When no adapter throws, every registered
      adapter (if asked for) is reset and `forceSaveRecordOnce` is set; when
      one throws, its error is returned and the flag is not set. */
  lemma ResetSyncCachesOutcome(s: Session, includingAdapters: bool, fails: ZoneId -> Option<Error>,
                               order: set<ZoneId> -> seq<ZoneId>)
    requires ValidSession(s) && Enumerates(order(s.adapters.Keys), s.adapters.Keys)
    ensures var (r, thrown) := OnResetSyncCaches(s, includingAdapters, fails, order);
            && r.storedDatabaseToken.None? && r.activeZoneTokens == map[]
            && (r.cancelSync <==> s.cancelSync || s.syncing)
            && r.adapters.Keys == s.adapters.Keys
            && (thrown.None? ==> r.forceSaveRecordOnce)
            && (thrown.None? && includingAdapters ==> forall z :: z in s.adapters ==> r.adapters[z] == ResetSyncCaches(s.adapters[z]))
            && (!includingAdapters ==> thrown.None? && r.adapters == s.adapters)
            && (thrown.Some? ==> r.forceSaveRecordOnce == s.forceSaveRecordOnce && exists z :: z in s.adapters && thrown == fails(z))
  {
    if includingAdapters {
      ResetResult(fails, order(s.adapters.Keys), s.adapters);
    }
  }
}
