/** Every transition of the engine keeps the session invariant: the upload
    retry counter stays within 0..2, no pending cancellation or completion outside
    a round, every adapter registered under its own zone, and an upload step
    that points into its queue. */
module Invariants {
  import opened Types
  import opened Errors
  import opened BatchSize
  import opened Adapters
  import opened Tokens
  import opened Runner
  import opened Merge
  import opened Reset
  import opened Engine

  /** The stored invariant minus the step: what a continuation needs of the
      state it is handed. */
  ghost predicate Resumable(s: Session)
  {
    && 0 <= s.uploadRetries <= MaxUploadRetries
    && (s.cancelSync ==> s.syncing)
    && (s.completion.Some? ==> s.syncing)
    && KeyedByZone(s.adapters)
  }

  lemma FinishedKeepsValid(s: Session, err: Option<Error>)
    requires KeyedByZone(s.adapters)
    ensures ValidSession(Finished(s, err))
  {
    var done := s.(activeZoneTokens := map[], uploadRetries := 0, adapters := FinishAll(s.adapters),
                   syncing := false, cancelSync := false,
                   delivered := s.delivered + Deliver(s.completion, err), completion := None);
    assert KeyedByZone(done.adapters);
    if IsChangeTokenExpired(err) {
      assert Finished(s, err) == done.(storedDatabaseToken := None, adapters := map[], step := FetchPending);
    } else {
      assert Finished(s, err) == done.(step := Idle);
    }
  }

  lemma PerformedKeepsValid(s: Session)
    requires Resumable(s)
    ensures ValidSession(Performed(s))
  {
  }

  lemma FetchCompletedKeepsValid(s: Session, token: Option<Token>, err: Option<Error>)
    requires Resumable(s)
    ensures ValidSession(FetchCompleted(s, token, err))
  {
    if err.Some? {
      FinishedKeepsValid(s, err);
    } else {
      var fetched := s.(serverChangeToken := token, storedDatabaseToken := token);
      if s.syncMode == Sync {
        assert FetchCompleted(s, token, err) == fetched.(step := UploadPending);
      } else {
        FinishedKeepsValid(fetched, None);
      }
    }
  }

  /** The retry counter only grows below the cap, so it never exceeds it. */
  lemma UploadFinishedKeepsValid(s: Session, err: Option<Error>)
    requires Resumable(s)
    ensures ValidSession(UploadFinished(s, err))
  {
    if err.Some? {
      if ShouldRetryUpload(err.value, s.uploadRetries) {
        assert UploadFinished(s, err) == s.(uploadRetries := s.uploadRetries + 1, step := FetchPending);
      } else {
        FinishedKeepsValid(s, err);
      }
    }
  }

  lemma AdvanceDeletionsKeepsValid(s: Session, queue: seq<ZoneId>, i: nat)
    requires Resumable(s) && i <= |queue|
    ensures ValidSession(AdvanceDeletions(s, queue, i))
  {
    var j := NextDeletionsWork(queue, i, s.adapters, s.batchSize);
    if j == |queue| {
      UploadFinishedKeepsValid(s, None);
    }
  }

  lemma AdvanceRecordsKeepsValid(s: Session, queue: seq<ZoneId>, i: nat, setupDone: bool,
                                 order: set<ZoneId> -> seq<ZoneId>)
    requires Resumable(s) && i <= |queue|
    ensures ValidSession(AdvanceRecords(s, queue, i, setupDone, order))
  {
    var j := NextRecordsWork(queue, i, setupDone, s.adapters, s.batchSize);
    if j == |queue| {
      AdvanceDeletionsKeepsValid(s, order(s.adapters.Keys), 0);
    }
  }

  lemma UpdateServerTokenKeepsValid(s: Session, zones: seq<ZoneId>, token: Option<Token>)
    requires Resumable(s)
    ensures ValidSession(UpdateServerToken(s, zones, token))
  {
  }

  lemma OnSynchronizeKeepsValid(s: Session, h: Option<Handle>)
    requires ValidSession(s)
    ensures ValidSession(OnSynchronize(s, h))
  {
  }

  lemma OnCancelKeepsValid(s: Session)
    requires ValidSession(s)
    ensures ValidSession(OnCancel(s))
  {
  }

  lemma OnFetchChangesKeepsValid(s: Session)
    requires ValidSession(s)
    ensures ValidSession(OnFetchChanges(s))
  {
  }

  lemma OnDatabaseChangesKeepsValid(s: Session, token: Option<Token>, changed: seq<ZoneId>, deleted: seq<ZoneId>,
                                    provider: ZoneId -> Option<Adapter>)
    requires ValidSession(s) && ProviderKeyed(provider)
    ensures ValidSession(OnDatabaseChanges(s, token, changed, deleted, provider))
  {
    var loaded := LoadTokens(changed, true, provider, s.adapters);
    LoadTokensKeyed(changed, true, provider, s.adapters);
    var s1 := s.(deletedZoneNotices := s.deletedZoneNotices + deleted,
                 adapters := loaded.adapters, activeZoneTokens := loaded.tokens);
    assert Resumable(s1);
    if |loaded.filtered| == 0 {
      FetchCompletedKeepsValid(s1.(activeZoneTokens := map[]), token, None);
    }
  }

  lemma OnZoneChangesKeepsValid(s: Session, results: seq<(ZoneId, ZoneResult)>)
    requires ValidSession(s) && s.step.FetchingZones?
    ensures ValidSession(OnZoneChanges(s, results))
  {
    var a := ApplyZoneResults(results, Applied(s.activeZoneTokens, s.adapters, [], None, []));
    ApplyZoneResultsKeyed(results, Applied(s.activeZoneTokens, s.adapters, [], None, []));
    var s1 := s.(activeZoneTokens := a.tokens, adapters := a.adapters,
                 deletedZoneNotices := s.deletedZoneNotices + a.deletedNotices);
    assert Resumable(s1);
    if |a.pending| > 0 && a.error.None? {
      assert OnZoneChanges(s, results) == s1.(step := FetchingZones(a.pending, s.step.databaseToken));
    } else if a.error.Some? {
      assert OnZoneChanges(s, results) == Finished(s1, a.error);
      FinishedKeepsValid(s1, a.error);
    } else {
      assert OnZoneChanges(s, results) == s1.(step := MergePending(s.step.databaseToken));
    }
  }

  lemma OnMergeChangesKeepsValid(s: Session, persist: ZoneId -> Option<Error>, order: set<ZoneId> -> seq<ZoneId>)
    requires ValidSession(s) && s.step.MergePending?
    requires Enumerates(order(s.activeZoneTokens.Keys), s.activeZoneTokens.Keys)
    ensures ValidSession(OnMergeChanges(s, persist, order))
  {
    if !s.cancelSync {
      var zs := MergeQueue(s, order);
      FilterDistinct(order(s.activeZoneTokens.Keys), s.adapters.Keys);
      MergeResult(s.activeZoneTokens, persist, zs, s.adapters);
      var run := Sequential(zs, s.adapters, MergeStep(s.activeZoneTokens, persist));
      FetchCompletedKeepsValid(s.(adapters := run.state), s.step.databaseToken, run.outcome);
    }
  }

  lemma OnUploadChangesKeepsValid(s: Session, order: set<ZoneId> -> seq<ZoneId>)
    requires ValidSession(s)
    ensures ValidSession(OnUploadChanges(s, order))
  {
    if !s.cancelSync {
      AdvanceRecordsKeepsValid(s, order(s.adapters.Keys), 0, false, order);
    }
  }

  lemma OnZoneCheckedKeepsValid(s: Session, err: Option<Error>, order: set<ZoneId> -> seq<ZoneId>)
    requires ValidSession(s) && s.step.CheckingZone?
    ensures ValidSession(OnZoneChecked(s, err, order))
  {
    var r := OnZoneChecked(s, err, order);
    if IsZoneNotFoundOrDeletedError(err) {
      assert r == s.(step := CreatingZone(s.step.queue, s.step.index));
    } else if err.Some? {
      assert r == UploadFinished(s, err);
      UploadFinishedKeepsValid(s, err);
    } else {
      assert r == AdvanceRecords(s, s.step.queue, s.step.index, true, order);
      AdvanceRecordsKeepsValid(s, s.step.queue, s.step.index, true, order);
    }
  }

  lemma OnZoneCreatedKeepsValid(s: Session, err: Option<Error>, order: set<ZoneId> -> seq<ZoneId>)
    requires ValidSession(s) && s.step.CreatingZone?
    ensures ValidSession(OnZoneCreated(s, err, order))
  {
    var r := OnZoneCreated(s, err, order);
    if err.Some? {
      assert r == UploadFinished(s, err);
      UploadFinishedKeepsValid(s, err);
    } else {
      assert r == AdvanceRecords(s, s.step.queue, s.step.index, true, order);
      AdvanceRecordsKeepsValid(s, s.step.queue, s.step.index, true, order);
    }
  }

  lemma OnRecordsUploadedKeepsValid(s: Session, saved: seq<Record>, conflicted: seq<Record>, err: Option<Error>,
                                    order: set<ZoneId> -> seq<ZoneId>)
    requires ValidSession(s) && s.step.UploadingRecords?
    ensures ValidSession(OnRecordsUploaded(s, saved, conflicted, err, order))
  {
    var st := s.step;
    var z := st.queue[st.index];
    var s1 := s.(adapters := UploadedIn(s.adapters, z, saved));
    assert Resumable(s1);
    var r := OnRecordsUploaded(s, saved, conflicted, err, order);
    if err.Some? {
      if IsLimitExceededError(err.value) {
        var s2 := s1.(batchSize := Halved(s1.batchSize));
        assert r == UploadFinished(s2, err);
        UploadFinishedKeepsValid(s2, err);
      } else if |conflicted| > 0 {
        var s2 := s1.(adapters := ConflictsSavedIn(s1.adapters, z, conflicted));
        assert r == UploadFinished(s2, err);
        UploadFinishedKeepsValid(s2, err);
      } else {
        assert r == UploadFinished(s1, err);
        UploadFinishedKeepsValid(s1, err);
      }
    } else if |st.records| >= st.requested {
      assert r == AdvanceRecords(s1, st.queue, st.index, true, order);
      AdvanceRecordsKeepsValid(s1, st.queue, st.index, true, order);
    } else {
      assert r == AdvanceRecords(s1, st.queue, st.index + 1, false, order);
      AdvanceRecordsKeepsValid(s1, st.queue, st.index + 1, false, order);
    }
  }

  lemma OnDeletionsUploadedKeepsValid(s: Session, deletedIDs: seq<RecordId>, err: Option<Error>)
    requires ValidSession(s) && s.step.UploadingDeletions?
    ensures ValidSession(OnDeletionsUploaded(s, deletedIDs, err))
  {
    var st := s.step;
    var s1 := s.(adapters := DeletedIn(s.adapters, st.queue[st.index], deletedIDs));
    assert Resumable(s1);
    if err.Some? {
      UploadFinishedKeepsValid(if IsLimitExceededError(err.value) then s1.(batchSize := Halved(s1.batchSize)) else s1, err);
    } else {
      if |st.recordIDs| >= st.requested {
        AdvanceDeletionsKeepsValid(s1, st.queue, st.index);
      } else {
        AdvanceDeletionsKeepsValid(s1, st.queue, st.index + 1);
      }
    }
  }

  lemma OnReconcileDatabaseKeepsValid(s: Session, token: Option<Token>, changed: seq<ZoneId>, deleted: seq<ZoneId>)
    requires ValidSession(s)
    ensures ValidSession(OnReconcileDatabase(s, token, changed, deleted))
  {
    var s1 := s.(deletedZoneNotices := s.deletedZoneNotices + deleted);
    if |changed| > 0 {
      var loaded := LoadTokens(changed, false, NoProvider, s1.adapters);
      LoadTokensKeepsAdapters(changed, NoProvider, Loaded([], map[], s1.adapters));
      UpdateServerTokenKeepsValid(s1.(activeZoneTokens := loaded.tokens), loaded.filtered, token);
    } else {
      FinishedKeepsValid(s1, None);
    }
  }

  lemma OnReconcileZonesKeepsValid(s: Session, results: seq<(ZoneId, ZoneResult)>)
    requires ValidSession(s) && s.step.ReconcilingZones?
    ensures ValidSession(OnReconcileZones(s, results))
  {
    var r := ReconcileResults(results, Reconciled(s.activeZoneTokens, s.adapters, [], false));
    ReconcileResultsKeyed(results, Reconciled(s.activeZoneTokens, s.adapters, [], false));
    var s1 := s.(activeZoneTokens := r.tokens, adapters := r.adapters);
    assert Resumable(s1);
    if |r.pending| > 0 && !r.needsToRefetch {
      UpdateServerTokenKeepsValid(s1, r.pending, s.step.databaseToken);
    } else if r.needsToRefetch {
      PerformedKeepsValid(s1);
    } else {
      FinishedKeepsValid(s1.(storedDatabaseToken := s.step.databaseToken), None);
    }
  }

  lemma OnOperationFailedKeepsValid(s: Session, err: Error)
    requires ValidSession(s)
    ensures ValidSession(OnOperationFailed(s, err))
  {
  }

  lemma OnResetSyncCachesKeepsValid(s: Session, includingAdapters: bool, fails: ZoneId -> Option<Error>,
                                    order: set<ZoneId> -> seq<ZoneId>)
    requires ValidSession(s) && Enumerates(order(s.adapters.Keys), s.adapters.Keys)
    ensures ValidSession(OnResetSyncCaches(s, includingAdapters, fails, order).0)
  {
    if includingAdapters {
      ResetResult(fails, order(s.adapters.Keys), s.adapters);
    }
  }
}
