/** The synchronizer object. Its fields are those of `CloudKitSynchronizer`
    that the synchronization engine reads and writes, plus the point where
    the callback chain of the running round is suspended (`step`), the
    completion calls made so far and the deleted-zone notices handed to the
    adapter provider. Every method updates the fields in place, as the
    source does, and is proved to leave exactly the state the matching
    transition of `Engine` describes; each public method also keeps the
    session invariant. */
module Synchronizer {
  import opened Types
  import opened Errors
  import opened BatchSize
  import opened Adapters
  import opened Tokens
  import opened Runner
  import opened Merge
  import opened Reset
  import opened Engine
  import Invariants

  class CloudKitSynchronizer {
    var syncing: bool
    var allowSyncing: bool
    var batchSize: int
    var syncMode: SyncMode
    var modelAdapterDictionary: map<ZoneId, Adapter>
    var serverChangeToken: Option<Token>
    var storedDatabaseToken: Option<Token>
    var activeZoneTokens: map<ZoneId, Token>
    var cancelSync: bool
    var completion: Option<Handle>
    var uploadRetries: int
    var didNotifyUpload: set<ZoneId>
    var forceSaveRecordOnce: bool
    var step: Step
    var delivered: seq<Delivery>
    var deletedZoneNotices: seq<ZoneId>

    /** `adapterProvider.cloudKitSynchronizer(_:modelAdapterForRecordZoneID:)`. */
    const adapterProvider: ZoneId -> Option<Adapter>
    /** The order in which a dictionary's keys (and so its values) are enumerated. */
    const order: set<ZoneId> -> seq<ZoneId>

    /** The fields as a session value. */
    function Snapshot(): Session
      reads this
    {
      Session(syncing, allowSyncing, batchSize, syncMode, modelAdapterDictionary, serverChangeToken,
              storedDatabaseToken, activeZoneTokens, cancelSync, completion, uploadRetries, didNotifyUpload,
              forceSaveRecordOnce, step, delivered, deletedZoneNotices)
    }

    /** Every dictionary is enumerated once per key. */
    ghost predicate OrderEnumerates()
    {
      forall ks :: Enumerates(order(ks), ks)
    }

    ghost predicate Valid()
      reads this
    {
      ValidSession(Snapshot()) && ProviderKeyed(adapterProvider) && OrderEnumerates()
    }

    /** A new synchronizer: not syncing, syncing allowed, the default batch
      size, `.sync` mode, no adapters, and the database token read back from
      the key-value store. */
    constructor (storedToken: Option<Token>, provider: ZoneId -> Option<Adapter>, order: set<ZoneId> -> seq<ZoneId>)
      requires ProviderKeyed(provider)
      requires forall ks :: Enumerates(order(ks), ks)
      ensures Valid()
      ensures Snapshot() == Session(false, true, DefaultBatchSize, Sync, map[], None, storedToken, map[], false, None,
                                    0, {}, false, Idle, [], [])
    {
      syncing := false;
      allowSyncing := true;
      batchSize := DefaultBatchSize;
      syncMode := Sync;
      modelAdapterDictionary := map[];
      serverChangeToken := None;
      storedDatabaseToken := storedToken;
      activeZoneTokens := map[];
      cancelSync := false;
      completion := None;
      uploadRetries := 0;
      didNotifyUpload := {};
      forceSaveRecordOnce := false;
      step := Idle;
      delivered := [];
      deletedZoneNotices := [];
      adapterProvider := provider;
      this.order := order;
    }

    // -------------------------------------------------------------------------
    // Public operations

    /** `synchronize(completion:)`. */
    method Synchronize(h: Option<Handle>)
      requires Valid()
      modifies this
      ensures Valid()
      ensures Snapshot() == OnSynchronize(old(Snapshot()), h)
    {
      Invariants.OnSynchronizeKeepsValid(Snapshot(), h);
      if !allowSyncing {
        delivered := delivered + Deliver(h, Some(SyncErr(NotAllow)));
        return;
      }
      if syncing {
        delivered := delivered + Deliver(h, Some(SyncErr(AlreadySyncing)));
        return;
      }
      cancelSync := false;
      syncing := true;
      completion := h;
      assert Snapshot() == old(Snapshot()).(cancelSync := false, syncing := true, completion := h);
      PerformSynchronization();
    }

    /** `cancelSynchronization()`: only a running, not yet cancelled round is
      marked; the round ends at its next cancellation gate. */
    method CancelSynchronization()
      requires Valid()
      modifies this
      ensures Valid()
      ensures Snapshot() == OnCancel(old(Snapshot()))
    {
      if syncing && !cancelSync {
        cancelSync := true;
      }
    }

    /** `resetDatabaseToken()`: the next round fetches the changes of every zone. */
    method ResetDatabaseToken()
      requires Valid()
      modifies this
      ensures Valid()
      ensures Snapshot() == old(Snapshot()).(storedDatabaseToken := None)
    {
      storedDatabaseToken := None;
    }

    /** `activeZoneToken(zoneID:)`: the zone's token for the running fetch, if any. */
    function ActiveZoneToken(zoneID: ZoneId): (t: Option<Token>)
      reads this
      ensures t.Some? <==> zoneID in activeZoneTokens
      ensures t.Some? ==> t.value == activeZoneTokens[zoneID]
    {
      ActiveToken(activeZoneTokens, zoneID)
    }

    /** `modelAdapters`: every registered adapter, once each. */
    function ModelAdapters(): (r: seq<Adapter>)
      reads this
      requires OrderEnumerates()
      ensures |r| == |modelAdapterDictionary.Keys|
      ensures forall z :: z in modelAdapterDictionary ==> modelAdapterDictionary[z] in r
      ensures forall i :: 0 <= i < |r| ==> r[i] in modelAdapterDictionary.Values
    {
      var q := order(modelAdapterDictionary.Keys);
      assert Enumerates(q, modelAdapterDictionary.Keys);
      assert (set z | z in q) == modelAdapterDictionary.Keys;
      DistinctCard(q);
      var r := ValuesIn(modelAdapterDictionary, q);
      assert forall z :: z in modelAdapterDictionary ==> modelAdapterDictionary[z] in r by {
        forall z | z in modelAdapterDictionary ensures modelAdapterDictionary[z] in r {
          var i :| 0 <= i < |q| && q[i] == z;
          assert r[i] == modelAdapterDictionary[z];
        }
      }
      r
    }

    /** `addModelAdapter(_:)`: the adapter is registered under its zone,
      replacing any adapter registered there. */
    method AddModelAdapter(adapter: Adapter)
      requires Valid()
      modifies this
      ensures Valid()
      ensures Snapshot() == old(Snapshot()).(adapters := old(modelAdapterDictionary)[adapter.recordZoneID := adapter])
    {
      modelAdapterDictionary := modelAdapterDictionary[adapter.recordZoneID := adapter];
    }

    /** `removeModelAdapter(_:)`: whatever adapter is registered under the
      adapter's zone is dropped. */
    method RemoveModelAdapter(adapter: Adapter)
      requires Valid()
      modifies this
      ensures Valid()
      ensures Snapshot() == old(Snapshot()).(adapters := old(modelAdapterDictionary) - {adapter.recordZoneID})
    {
      modelAdapterDictionary := modelAdapterDictionary - {adapter.recordZoneID};
    }

    /** `resetSyncCaches(includingAdapters:)`; `fails` gives the outcome of
      each adapter's own `resetSyncCaches()`, and `thrown` is the error that
      escapes, if any. */
    method ResetSyncCaches(includingAdapters: bool, fails: ZoneId -> Option<Error>) returns (thrown: Option<Error>)
      requires Valid()
      modifies this
      ensures Valid()
      ensures (Snapshot(), thrown) == OnResetSyncCaches(old(Snapshot()), includingAdapters, fails, order)
    {
      Invariants.OnResetSyncCachesKeepsValid(Snapshot(), includingAdapters, fails, order);
      DropTokens();
      thrown := None;
      if includingAdapters {
        var m;
        m, thrown := ResetEach(modelAdapterDictionary, fails);
        modelAdapterDictionary := m;
        if thrown.Some? {
          return;
        }
      }
      forceSaveRecordOnce := true;
    }

    /** The first half of `resetSyncCaches(includingAdapters:)`: the round is
      cancelled and the database and zone tokens are dropped. */
    method DropTokens()
      modifies this
      ensures Snapshot() == OnCancel(old(Snapshot())).(storedDatabaseToken := None, activeZoneTokens := map[])
    {
      if syncing && !cancelSync {
        cancelSync := true;
      }
      storedDatabaseToken := None;
      activeZoneTokens := map[];
    }

    /** The loop of `resetSyncCaches(includingAdapters:)` over `modelAdapters`:
      it stops at the first adapter that throws. */
    method ResetEach(m: map<ZoneId, Adapter>, fails: ZoneId -> Option<Error>)
      returns (r: map<ZoneId, Adapter>, thrown: Option<Error>)
      ensures r == Sequential(order(m.Keys), m, ResetStep(fails)).state
      ensures thrown == Sequential(order(m.Keys), m, ResetStep(fails)).outcome
    {
      var zones := order(m.Keys);
      ghost var run := Sequential(zones, m, ResetStep(fails));
      r, thrown := m, None;
      var i := 0;
      while i < |zones|
        invariant 0 <= i <= |zones|
        invariant Sequential(zones[i..], r, ResetStep(fails)).state == run.state
        invariant Sequential(zones[i..], r, ResetStep(fails)).outcome == run.outcome
      {
        var z := zones[i];
        ghost var rest := zones[i..];
        assert rest[0] == z && rest[1..] == zones[i + 1..];
        assert ResetStep(fails)(r, z) == ResetInto(fails, r, z);
        if z in r && fails(z).Some? {
          StopsAtError(rest, r, ResetStep(fails));
          thrown := fails(z);
          return;
        }
        VisitedTail(rest, r, ResetStep(fails));
        if z in r {
          r := r[z := Adapters.ResetSyncCaches(r[z])];
        }
        i := i + 1;
      }
    }

    /** `needsInitialSetup()`: the caches are reset, the adapters left alone. */
    method NeedsInitialSetup(fails: ZoneId -> Option<Error>) returns (thrown: Option<Error>)
      requires Valid()
      modifies this
      ensures Valid()
      ensures thrown.None?
      ensures (Snapshot(), thrown) == OnResetSyncCaches(old(Snapshot()), false, fails, order)
    {
      thrown := ResetSyncCaches(false, fails);
    }

    /** `deleteRecordZone(for:completion:)`: whatever CloudKit replies
      (`remoteError`), the adapter of the zone drops its token, and the reply
      is passed on. */
    method DeleteRecordZone(zoneID: ZoneId, remoteError: Option<Error>) returns (result: Option<Error>)
      requires Valid()
      modifies this
      ensures Valid()
      ensures result == remoteError
      ensures zoneID in old(modelAdapterDictionary) ==>
                Snapshot() == old(Snapshot()).(adapters := old(modelAdapterDictionary)[zoneID := SaveToken(old(modelAdapterDictionary)[zoneID], None)])
      ensures zoneID !in old(modelAdapterDictionary) ==> Snapshot() == old(Snapshot())
    {
      if zoneID in modelAdapterDictionary {
        modelAdapterDictionary := modelAdapterDictionary[zoneID := SaveToken(modelAdapterDictionary[zoneID], None)];
      }
      result := remoteError;
    }

    // -------------------------------------------------------------------------
    // Continuations

    /** `didFinishImport(with:)` on every registered adapter. */
    method FinishEach(m: map<ZoneId, Adapter>) returns (r: map<ZoneId, Adapter>)
      requires OrderEnumerates()
      ensures r == FinishAll(m)
    {
      var zones := order(m.Keys);
      assert Enumerates(zones, m.Keys);
      r := m;
      var i := 0;
      while i < |zones|
        invariant 0 <= i <= |zones|
        invariant r.Keys == m.Keys
        invariant forall z :: z in r ==> r[z] == if z in zones[..i] then DidFinishImport(m[z]) else m[z]
      {
        var z := zones[i];
        assert zones[..i + 1] == zones[..i] + [z];
        r := r[z := DidFinishImport(r[z])];
        i := i + 1;
      }
      assert zones[..|zones|] == zones;
      assert forall z :: z in r ==> r[z] == FinishAll(m)[z];
    }

    /** `prepareToImport()` on every registered adapter. */
    method PrepareEach(m: map<ZoneId, Adapter>) returns (r: map<ZoneId, Adapter>)
      requires OrderEnumerates()
      ensures r == PrepareAll(m)
    {
      var zones := order(m.Keys);
      assert Enumerates(zones, m.Keys);
      r := m;
      var i := 0;
      while i < |zones|
        invariant 0 <= i <= |zones|
        invariant r.Keys == m.Keys
        invariant forall z :: z in r ==> r[z] == if z in zones[..i] then PrepareToImport(m[z]) else m[z]
      {
        var z := zones[i];
        assert zones[..i + 1] == zones[..i] + [z];
        r := r[z := PrepareToImport(r[z])];
        i := i + 1;
      }
      assert zones[..|zones|] == zones;
      assert forall z :: z in r ==> r[z] == PrepareAll(m)[z];
    }

    /** The removal loop of `finishSynchronization` after an expired change
      token: every adapter listed by `modelAdapters` is removed in turn. */
    method RemoveEach(m: map<ZoneId, Adapter>) returns (r: map<ZoneId, Adapter>)
      requires OrderEnumerates()
      ensures r == map[]
    {
      var zones := order(m.Keys);
      assert Enumerates(zones, m.Keys);
      r := m;
      var i := 0;
      while i < |zones|
        invariant 0 <= i <= |zones|
        invariant forall z :: z in r <==> z in m && z !in zones[..i]
      {
        assert zones[..i + 1] == zones[..i] + [zones[i]];
        r := r - {zones[i]};
        i := i + 1;
      }
      assert zones[..|zones|] == zones;
      assert forall z :: z !in r;
    }

    /** `finishSynchronization(error:)`. On an expired change token the
      adapters are removed one by one and the fetch is scheduled again. */
    method FinishSynchronization(error: Option<Error>)
      requires OrderEnumerates()
      modifies this
      ensures Snapshot() == Finished(old(Snapshot()), error)
    {
      var finished := FinishEach(modelAdapterDictionary);
      CloseRound(finished);
      CallCompletion(error);
      if IsChangeTokenExpired(error) {
        RestartAfterExpiry();
      } else {
        step := Idle;
      }
    }

    /** The common part of `finishSynchronization(error:)`: the round's
      tokens and retries are cleared, the adapters are the finished ones and
      `syncing` is cleared. */
    method CloseRound(finished: map<ZoneId, Adapter>)
      modifies this
      ensures Snapshot() == old(Snapshot()).(activeZoneTokens := map[], uploadRetries := 0, adapters := finished,
                                             syncing := false, cancelSync := false)
    {
      activeZoneTokens := map[];
      uploadRetries := 0;
      modelAdapterDictionary := finished;
      syncing := false;
      cancelSync := false;
    }

    /** The round's block, if any, is called with the error and forgotten. */
    method CallCompletion(error: Option<Error>)
      modifies this
      ensures Snapshot() == old(Snapshot()).(delivered := old(delivered) + Deliver(old(completion), error),
                                             completion := None)
    {
      delivered := delivered + Deliver(completion, error);
      completion := None;
    }

    /** After an expired change token: the stored database token is dropped,
      every adapter is removed and the fetch is scheduled again. */
    method RestartAfterExpiry()
      requires OrderEnumerates()
      modifies this
      ensures Snapshot() == old(Snapshot()).(storedDatabaseToken := None, adapters := map[], step := FetchPending)
    {
      var remaining := RemoveEach(modelAdapterDictionary);
      storedDatabaseToken := None;
      modelAdapterDictionary := remaining;
      step := FetchPending;
    }

    /** `performSynchronization()`: the round starts from the stored database token. */
    method PerformSynchronization()
      requires OrderEnumerates()
      modifies this
      ensures Snapshot() == Performed(old(Snapshot()))
    {
      var prepared := PrepareEach(modelAdapterDictionary);
      serverChangeToken := storedDatabaseToken;
      uploadRetries := 0;
      didNotifyUpload := {};
      modelAdapterDictionary := prepared;
      step := FetchPending;
    }

    /** `reduceBatchSize()`. */
    method ReduceBatchSize()
      modifies this
      ensures Snapshot() == old(Snapshot()).(batchSize := Halved(old(batchSize)))
    {
      if batchSize >= 0 {
        batchSize := batchSize / 2;
      } else {
        batchSize := -((-batchSize) / 2);
      }
    }

    /** `increaseBatchSize()`. */
    method IncreaseBatchSize()
      modifies this
      ensures Snapshot() == old(Snapshot()).(batchSize := Increased(old(batchSize)))
    {
      if batchSize < DefaultBatchSize {
        batchSize := batchSize + BatchSizeStep;
      }
    }

    /** `loadTokens(for:loadAdapters:)`: the active map is rebuilt for the
      listed zones, missing adapters are requested from the provider when
      `loadAdapters` holds, and the zones that have an adapter are returned. */
    method LoadTokensFor(zoneIDs: seq<ZoneId>, loadAdapters: bool) returns (filtered: seq<ZoneId>)
      modifies this
      ensures var r := LoadTokens(zoneIDs, loadAdapters, adapterProvider, old(modelAdapterDictionary));
              && filtered == r.filtered
              && Snapshot() == old(Snapshot()).(adapters := r.adapters, activeZoneTokens := r.tokens)
    {
      ghost var r := LoadTokens(zoneIDs, loadAdapters, adapterProvider, modelAdapterDictionary);
      filtered := [];
      var tokens: map<ZoneId, Token> := map[];
      var m := modelAdapterDictionary;
      var i := 0;
      while i < |zoneIDs|
        invariant 0 <= i <= |zoneIDs|
        invariant LoadTokensFrom(zoneIDs[i..], loadAdapters, adapterProvider, Loaded(filtered, tokens, m)) == r
      {
        var z := zoneIDs[i];
        assert zoneIDs[i..][0] == z && zoneIDs[i..][1..] == zoneIDs[i + 1..];
        if z !in m && loadAdapters {
          var supplied := adapterProvider(z);
          if supplied.Some? {
            m := m[z := PrepareToImport(supplied.value)];
          }
        }
        if z in m {
          filtered := filtered + [z];
          var t := m[z].serverChangeToken;
          if t.Some? {
            tokens := tokens[z := t.value];
          } else {
            tokens := tokens - {z};
          }
        }
        i := i + 1;
      }
      modelAdapterDictionary := m;
      activeZoneTokens := tokens;
    }

    /** The completion handed to `fetchDatabaseChanges` by `fetchChanges`. */
    method FetchCompletedWith(token: Option<Token>, err: Option<Error>)
      requires OrderEnumerates()
      modifies this
      ensures Snapshot() == FetchCompleted(old(Snapshot()), token, err)
    {
      if err.Some? {
        FinishSynchronization(err);
        return;
      }
      serverChangeToken := token;
      storedDatabaseToken := token;
      if syncMode == Sync {
        step := UploadPending;
      } else {
        FinishSynchronization(None);
      }
    }

    /** The completion handed to the inner `uploadChanges` by the outer one. */
    method UploadFinishedWith(err: Option<Error>)
      requires OrderEnumerates()
      modifies this
      ensures Snapshot() == UploadFinished(old(Snapshot()), err)
    {
      if err.Some? {
        if ShouldRetryUpload(err.value, uploadRetries) {
          uploadRetries := uploadRetries + 1;
          step := FetchPending;
        } else {
          FinishSynchronization(err);
        }
      } else {
        IncreaseBatchSize();
        step := Reconciling;
      }
    }

    /** `sequential` over `uploadDeletions` from position `i`: adapters with
      nothing marked for deletion complete at once; the first one with a
      page has it sent, and when there is none the upload completes. */
    method AdvanceDeletionsFrom(queue: seq<ZoneId>, i: nat)
      requires i <= |queue| && OrderEnumerates()
      modifies this
      ensures Snapshot() == AdvanceDeletions(old(Snapshot()), queue, i)
    {
      var j := i;
      while j < |queue| && !HasDeletionsWork(modelAdapterDictionary, queue[j], batchSize)
        invariant i <= j <= |queue|
        invariant NextDeletionsWork(queue, j, modelAdapterDictionary, batchSize)
                  == NextDeletionsWork(queue, i, modelAdapterDictionary, batchSize)
      {
        j := j + 1;
      }
      if j == |queue| {
        UploadFinishedWith(None);
      } else {
        step := UploadingDeletions(queue, j, RecordIDsMarkedForDeletion(modelAdapterDictionary[queue[j]], batchSize), batchSize);
      }
    }

    /** `sequential` over `setupZoneAndUploadRecords` from position `i`
      (`setupDone` when the zone at `i` was just set up): adapters with no
      zone to set up and nothing to upload complete at once; the first other
      one has its zone looked up or its next page saved; when there is none,
      the deletions pass starts over the adapters then registered. */
    method AdvanceRecordsFrom(queue: seq<ZoneId>, i: nat, setupDone: bool)
      requires i <= |queue| && OrderEnumerates()
      modifies this
      ensures Snapshot() == AdvanceRecords(old(Snapshot()), queue, i, setupDone, order)
    {
      var j := i;
      while j < |queue| && !HasRecordsWork(modelAdapterDictionary, queue[j], batchSize, setupDone && j == i)
        invariant i <= j <= |queue|
        invariant NextRecordsWork(queue, j, setupDone && j == i, modelAdapterDictionary, batchSize)
                  == NextRecordsWork(queue, i, setupDone, modelAdapterDictionary, batchSize)
      {
        j := j + 1;
      }
      if j == |queue| {
        AdvanceDeletionsFrom(order(modelAdapterDictionary.Keys), 0);
      } else {
        var z := queue[j];
        var a := modelAdapterDictionary[z];
        if NeedsZoneSetup(a) && !(setupDone && j == i) {
          step := CheckingZone(queue, j);
        } else {
          didNotifyUpload := didNotifyUpload + {z};
          step := UploadingRecords(queue, j, RecordsToUpload(a, batchSize), batchSize);
        }
      }
    }

    /** `updateServerToken(for:completion:)`: a listed zone without an active
      token starts the round over; otherwise the zones are fetched key-only. */
    method UpdateServerTokenFor(zones: seq<ZoneId>, token: Option<Token>)
      requires OrderEnumerates()
      modifies this
      ensures Snapshot() == UpdateServerToken(old(Snapshot()), zones, token)
    {
      var tokens := activeZoneTokens;
      var hasAllTokens := true;
      var i := 0;
      while i < |zones|
        invariant 0 <= i <= |zones|
        invariant hasAllTokens <==> forall k :: 0 <= k < i ==> zones[k] in tokens
      {
        if zones[i] !in tokens {
          hasAllTokens := false;
        }
        i := i + 1;
      }
      if !hasAllTokens {
        assert !HasAllTokens(zones, activeZoneTokens) by {
          var k :| 0 <= k < |zones| && zones[k] !in tokens;
          var z := zones[k];
          assert z in zones && z !in activeZoneTokens;
        }
        PerformSynchronization();
        return;
      }
      step := ReconcilingZones(zones, token);
    }

    // -------------------------------------------------------------------------
    // The replies of the round

    /** `fetchChanges()`: its cancellation gate, then the database-changes operation. */
    method FetchChanges()
      requires Valid()
      modifies this
      ensures Valid()
      ensures Snapshot() == OnFetchChanges(old(Snapshot()))
    {
      Invariants.OnFetchChangesKeepsValid(Snapshot());
      if cancelSync {
        FinishSynchronization(CancelledError);
        return;
      }
      step := FetchingDatabase;
    }

    /** The changes handler of `fetchDatabaseChanges`: the deleted zones are
      reported, the changed zones' tokens loaded (adapters requested from the
      provider), and the zones that have an adapter fetched. */
    method DatabaseChangesArrived(token: Option<Token>, changed: seq<ZoneId>, deleted: seq<ZoneId>)
      requires Valid()
      modifies this
      ensures Valid()
      ensures Snapshot() == OnDatabaseChanges(old(Snapshot()), token, changed, deleted, adapterProvider)
    {
      Invariants.OnDatabaseChangesKeepsValid(Snapshot(), token, changed, deleted, adapterProvider);
      ghost var loaded := LoadTokens(changed, true, adapterProvider, modelAdapterDictionary);
      ghost var s1 := Snapshot().(deletedZoneNotices := deletedZoneNotices + deleted,
                                  adapters := loaded.adapters, activeZoneTokens := loaded.tokens);
      NotifyProviderForDeletedZones(deleted);
      var zoneIDsToFetch := LoadTokensFor(changed, true);
      assert Snapshot() == s1 && zoneIDsToFetch == loaded.filtered;
      FetchZonesOrComplete(zoneIDsToFetch, token);
    }

    /** The rest of the changes handler of `fetchDatabaseChanges`: with no zone
      to fetch the active tokens are dropped and the fetch completes at once;
      otherwise `fetchZoneChanges` starts on the zones. */
    method FetchZonesOrComplete(zoneIDsToFetch: seq<ZoneId>, token: Option<Token>)
      requires OrderEnumerates()
      modifies this
      ensures |zoneIDsToFetch| == 0 ==> Snapshot() == FetchCompleted(old(Snapshot()).(activeZoneTokens := map[]), token, None)
      ensures |zoneIDsToFetch| > 0 ==> Snapshot() == old(Snapshot()).(step := FetchingZones(zoneIDsToFetch, token))
    {
      if |zoneIDsToFetch| == 0 {
        activeZoneTokens := map[];
        FetchCompletedWith(token, None);
        return;
      }
      step := FetchingZones(zoneIDsToFetch, token);
    }

    /** `notifyProviderForDeletedZoneIDs(_:)`: each deleted zone is reported to
      the adapter provider, in order. */
    method NotifyProviderForDeletedZones(zoneIDs: seq<ZoneId>)
      modifies this
      ensures Snapshot() == old(Snapshot()).(deletedZoneNotices := old(deletedZoneNotices) + zoneIDs)
    {
      deletedZoneNotices := deletedZoneNotices + zoneIDs;
    }

    /** The loop of the zone-changes handler of `fetchZoneChanges` over the
      zone results; it returns the zones with more coming and the error. */
    method ApplyZoneResultsFrom(results: seq<(ZoneId, ZoneResult)>) returns (pending: seq<ZoneId>, error: Option<Error>)
      modifies this
      ensures var r := ApplyZoneResults(results, Applied(old(activeZoneTokens), old(modelAdapterDictionary), [], None, []));
              && pending == r.pending && error == r.error
              && Snapshot() == old(Snapshot()).(activeZoneTokens := r.tokens, adapters := r.adapters,
                                                deletedZoneNotices := old(deletedZoneNotices) + r.deletedNotices)
    {
      ghost var r := ApplyZoneResults(results, Applied(activeZoneTokens, modelAdapterDictionary, [], None, []));
      var tokens, m, notices := activeZoneTokens, modelAdapterDictionary, [];
      pending, error := [], None;
      var i := 0;
      while i < |results|
        invariant 0 <= i <= |results|
        invariant ApplyZoneResults(results[i..], Applied(tokens, m, pending, error, notices)) == r
        invariant error.None?
      {
        assert results[i..][0] == results[i] && results[i..][1..] == results[i + 1..];
        var (z, res) := results[i];
        ghost var acc := Applied(tokens, m, pending, error, notices);
        if res.error.Some? {
          if IsZoneNotFoundOrDeletedError(error) {
            notices := notices + [z];
          } else {
            error := res.error;
            break;
          }
        } else {
          tokens := SetToken(tokens, z, res.serverChangeToken);
          if z in m {
            m := m[z := DeleteRecords(SaveChanges(m[z], res.downloadedRecords), res.deletedRecordIDs)];
          }
          if res.moreComing {
            pending := pending + [z];
          }
          assert Applied(tokens, m, pending, error, notices) == ApplyZone(acc, z, res);
        }
        i := i + 1;
      }
      activeZoneTokens := tokens;
      modelAdapterDictionary := m;
      deletedZoneNotices := deletedZoneNotices + notices;
    }

    /** A page of zone changes arrives: zones with more coming are fetched
      again when no zone failed; otherwise the error finishes the round, or
      the merge follows. */
    method ZoneChangesArrived(results: seq<(ZoneId, ZoneResult)>)
      requires Valid() && step.FetchingZones?
      modifies this
      ensures Valid()
      ensures Snapshot() == OnZoneChanges(old(Snapshot()), results)
    {
      Invariants.OnZoneChangesKeepsValid(Snapshot(), results);
      var databaseToken := step.databaseToken;
      var pendingZones, error := ApplyZoneResultsFrom(results);
      if |pendingZones| > 0 && error.None? {
        step := FetchingZones(pendingZones, databaseToken);
      } else if error.Some? {
        FinishSynchronization(error);
      } else {
        step := MergePending(databaseToken);
      }
    }

    /** The `adapterSet` of `mergeChanges`: the adapters of the zones with an
      active token, in the order the active map enumerates them. */
    method AdapterSet() returns (adapterSet: seq<ZoneId>)
      ensures adapterSet == MergeQueue(Snapshot(), order)
    {
      var keys := order(activeZoneTokens.Keys);
      adapterSet := [];
      var i := 0;
      while i < |keys|
        invariant 0 <= i <= |keys|
        invariant adapterSet + Filter(keys[i..], modelAdapterDictionary.Keys) == Filter(keys, modelAdapterDictionary.Keys)
      {
        assert keys[i..][0] == keys[i] && keys[i..][1..] == keys[i + 1..];
        if keys[i] in modelAdapterDictionary {
          adapterSet := adapterSet + [keys[i]];
        }
        i := i + 1;
      }
      assert keys[i..] == [];
    }

    /** `sequential` over `mergeChangesIntoAdapter`: each adapter commits its
      imported changes and then saves its zone's active token, until one fails. */
    method MergeEach(zs: seq<ZoneId>, persist: ZoneId -> Option<Error>)
      returns (m: map<ZoneId, Adapter>, error: Option<Error>)
      ensures m == Sequential(zs, modelAdapterDictionary, MergeStep(activeZoneTokens, persist)).state
      ensures error == Sequential(zs, modelAdapterDictionary, MergeStep(activeZoneTokens, persist)).outcome
    {
      var tokens := activeZoneTokens;
      ghost var merge := MergeStep(tokens, persist);
      ghost var run := Sequential(zs, modelAdapterDictionary, merge);
      m, error := modelAdapterDictionary, None;
      var i := 0;
      while i < |zs|
        invariant 0 <= i <= |zs|
        invariant Sequential(zs[i..], m, merge).state == run.state
        invariant Sequential(zs[i..], m, merge).outcome == run.outcome
      {
        var z := zs[i];
        ghost var rest := zs[i..];
        assert rest[0] == z && rest[1..] == zs[i + 1..];
        assert merge(m, z) == MergeInto(tokens, persist, m, z);
        if z in m && persist(z).Some? {
          StopsAtError(rest, m, merge);
          m, error := m[z := PersistImportedChanges(m[z])], persist(z);
          return;
        }
        VisitedTail(rest, m, merge);
        if z in m {
          var a := PersistImportedChanges(m[z]);
          var token := ActiveZoneToken(a.recordZoneID);
          if token.Some? {
            m := m[z := SaveToken(a, token)];
          } else {
            m := m[z := a];
          }
        }
        i := i + 1;
      }
    }

    /** `mergeChanges(completion:)`: its cancellation gate, then the merge,
      whose outcome completes the fetch. */
    method MergeChanges(persist: ZoneId -> Option<Error>)
      requires Valid() && step.MergePending?
      modifies this
      ensures Valid()
      ensures Snapshot() == OnMergeChanges(old(Snapshot()), persist, order)
    {
      Invariants.OnMergeChangesKeepsValid(Snapshot(), persist, order);
      if cancelSync {
        FinishSynchronization(CancelledError);
        return;
      }
      var databaseToken := step.databaseToken;
      var adapterSet := AdapterSet();
      var m, error := MergeEach(adapterSet, persist);
      modelAdapterDictionary := m;
      FetchCompletedWith(databaseToken, error);
    }

    /** The outer `uploadChanges()`: its cancellation gate, then the records
      pass over the registered adapters. */
    method UploadChanges()
      requires Valid()
      modifies this
      ensures Valid()
      ensures Snapshot() == OnUploadChanges(old(Snapshot()), order)
    {
      Invariants.OnUploadChangesKeepsValid(Snapshot(), order);
      if cancelSync {
        FinishSynchronization(CancelledError);
        return;
      }
      AdvanceRecordsFrom(order(modelAdapterDictionary.Keys), 0, false);
    }

    /** The reply to the zone lookup of `setupRecordZoneID`. */
    method ZoneChecked(err: Option<Error>)
      requires Valid() && step.CheckingZone?
      modifies this
      ensures Valid()
      ensures Snapshot() == OnZoneChecked(old(Snapshot()), err, order)
    {
      Invariants.OnZoneCheckedKeepsValid(Snapshot(), err, order);
      var queue, index := step.queue, step.index;
      if IsZoneNotFoundOrDeletedError(err) {
        step := CreatingZone(queue, index);
      } else if err.Some? {
        UploadFinishedWith(err);
      } else {
        AdvanceRecordsFrom(queue, index, true);
      }
    }

    /** The reply to the zone creation of `setupRecordZoneID`. */
    method ZoneCreated(err: Option<Error>)
      requires Valid() && step.CreatingZone?
      modifies this
      ensures Valid()
      ensures Snapshot() == OnZoneCreated(old(Snapshot()), err, order)
    {
      Invariants.OnZoneCreatedKeepsValid(Snapshot(), err, order);
      var queue, index := step.queue, step.index;
      if err.Some? {
        UploadFinishedWith(err);
      } else {
        AdvanceRecordsFrom(queue, index, true);
      }
    }

    /** `didUpload(savedRecords:)` on the adapter of zone `z`. */
    method DidUploadIn(z: ZoneId, saved: seq<Record>)
      modifies this
      ensures Snapshot() == old(Snapshot()).(adapters := UploadedIn(old(modelAdapterDictionary), z, saved))
    {
      if z in modelAdapterDictionary {
        modelAdapterDictionary := modelAdapterDictionary[z := DidUpload(modelAdapterDictionary[z], saved)];
      }
    }

    /** The conflicting server records saved and persisted in the adapter of zone `z`. */
    method SaveConflictsIn(z: ZoneId, conflicted: seq<Record>)
      modifies this
      ensures Snapshot() == old(Snapshot()).(adapters := ConflictsSavedIn(old(modelAdapterDictionary), z, conflicted))
    {
      if z in modelAdapterDictionary {
        modelAdapterDictionary := modelAdapterDictionary[z := PersistImportedChanges(SaveChanges(modelAdapterDictionary[z], conflicted))];
      }
    }

    /** The completion of the records operation of `uploadRecords(adapter:completion:)`. */
    method RecordsUploaded(saved: seq<Record>, conflicted: seq<Record>, err: Option<Error>)
      requires Valid() && step.UploadingRecords?
      modifies this
      ensures Valid()
      ensures Snapshot() == OnRecordsUploaded(old(Snapshot()), saved, conflicted, err, order)
    {
      Invariants.OnRecordsUploadedKeepsValid(Snapshot(), saved, conflicted, err, order);
      var st := step;
      var z := st.queue[st.index];
      DidUploadIn(z, saved);
      if err.Some? {
        if IsLimitExceededError(err.value) {
          ReduceBatchSize();
        } else if |conflicted| > 0 {
          SaveConflictsIn(z, conflicted);
        }
        UploadFinishedWith(err);
      } else if |st.records| >= st.requested {
        AdvanceRecordsFrom(st.queue, st.index, true);
      } else {
        AdvanceRecordsFrom(st.queue, st.index + 1, false);
      }
    }

    /** `didDelete(recordIDs:)` on the adapter of zone `z`. */
    method DidDeleteIn(z: ZoneId, deletedIDs: seq<RecordId>)
      modifies this
      ensures Snapshot() == old(Snapshot()).(adapters := DeletedIn(old(modelAdapterDictionary), z, deletedIDs))
    {
      if z in modelAdapterDictionary {
        modelAdapterDictionary := modelAdapterDictionary[z := DidDelete(modelAdapterDictionary[z], deletedIDs)];
      }
    }

    /** The completion of the deletions operation of `uploadDeletions(adapter:completion:)`. */
    method DeletionsUploaded(deletedIDs: seq<RecordId>, err: Option<Error>)
      requires Valid() && step.UploadingDeletions?
      modifies this
      ensures Valid()
      ensures Snapshot() == OnDeletionsUploaded(old(Snapshot()), deletedIDs, err)
    {
      Invariants.OnDeletionsUploadedKeepsValid(Snapshot(), deletedIDs, err);
      var st := step;
      DidDeleteIn(st.queue[st.index], deletedIDs);
      if err.Some? {
        if IsLimitExceededError(err.value) {
          ReduceBatchSize();
        }
        UploadFinishedWith(err);
      } else if |st.recordIDs| >= st.requested {
        AdvanceDeletionsFrom(st.queue, st.index);
      } else {
        AdvanceDeletionsFrom(st.queue, st.index + 1);
      }
    }

    /** The changes handler of the database operation of `updateTokens()`. */
    method ReconcileDatabaseArrived(token: Option<Token>, changed: seq<ZoneId>, deleted: seq<ZoneId>)
      requires Valid()
      modifies this
      ensures Valid()
      ensures Snapshot() == OnReconcileDatabase(old(Snapshot()), token, changed, deleted)
    {
      Invariants.OnReconcileDatabaseKeepsValid(Snapshot(), token, changed, deleted);
      NotifyProviderForDeletedZones(deleted);
      if |changed| > 0 {
        LoadTokensIgnoresProvider(changed, adapterProvider, NoProvider, Loaded([], map[], modelAdapterDictionary));
        ghost var loaded := LoadTokens(changed, false, NoProvider, modelAdapterDictionary);
        ghost var s1 := Snapshot().(activeZoneTokens := loaded.tokens);
        LoadTokensKeepsAdapters(changed, NoProvider, Loaded([], map[], modelAdapterDictionary));
        var zoneIDs := LoadTokensFor(changed, false);
        assert Snapshot() == s1 && zoneIDs == loaded.filtered;
        UpdateServerTokenFor(zoneIDs, token);
      } else {
        FinishSynchronization(None);
      }
    }

    /** The loop of the key-only zone-changes handler of `updateServerToken`;
      it returns the zones with more coming and whether a refetch is needed. */
    method ReconcileEach(results: seq<(ZoneId, ZoneResult)>) returns (pending: seq<ZoneId>, needsToRefetch: bool)
      modifies this
      ensures var r := ReconcileResults(results, Reconciled(old(activeZoneTokens), old(modelAdapterDictionary), [], false));
              && pending == r.pending && needsToRefetch == r.needsToRefetch
              && Snapshot() == old(Snapshot()).(activeZoneTokens := r.tokens, adapters := r.adapters)
    {
      ghost var r := ReconcileResults(results, Reconciled(activeZoneTokens, modelAdapterDictionary, [], false));
      var tokens, m := activeZoneTokens, modelAdapterDictionary;
      pending, needsToRefetch := [], false;
      var i := 0;
      while i < |results|
        invariant 0 <= i <= |results|
        invariant ReconcileResults(results[i..], Reconciled(tokens, m, pending, needsToRefetch)) == r
      {
        assert results[i..][0] == results[i] && results[i..][1..] == results[i + 1..];
        var (z, res) := results[i];
        ghost var acc := Reconciled(tokens, m, pending, needsToRefetch);
        if |res.downloadedRecords| > 0 || |res.deletedRecordIDs| > 0 {
          needsToRefetch := true;
        } else {
          tokens := SetToken(tokens, z, res.serverChangeToken);
          if z in m {
            m := m[z := SaveToken(m[z], res.serverChangeToken)];
          }
        }
        if res.moreComing {
          pending := pending + [z];
        }
        assert Reconciled(tokens, m, pending, needsToRefetch) == ReconcileStep(acc, z, res);
        i := i + 1;
      }
      activeZoneTokens := tokens;
      modelAdapterDictionary := m;
    }

    /** A page of key-only zone changes arrives (`updateServerToken` and its
      completion in `updateTokens`). */
    method ReconcileZonesArrived(results: seq<(ZoneId, ZoneResult)>)
      requires Valid() && step.ReconcilingZones?
      modifies this
      ensures Valid()
      ensures Snapshot() == OnReconcileZones(old(Snapshot()), results)
    {
      Invariants.OnReconcileZonesKeepsValid(Snapshot(), results);
      var databaseToken := step.databaseToken;
      var pendingZones, needsToRefetch := ReconcileEach(results);
      if |pendingZones| > 0 && !needsToRefetch {
        UpdateServerTokenFor(pendingZones, databaseToken);
      } else if needsToRefetch {
        PerformSynchronization();
      } else {
        storedDatabaseToken := databaseToken;
        FinishSynchronization(None);
      }
    }

    /** The error handler `runOperation` installs on the operation that is running. */
    method OperationFailed(err: Error)
      requires Valid() && RunsOperation(step)
      modifies this
      ensures Valid()
      ensures Snapshot() == OnOperationFailed(old(Snapshot()), err)
    {
      Invariants.OnOperationFailedKeepsValid(Snapshot(), err);
      FinishSynchronization(Some(err));
    }
  }
}
