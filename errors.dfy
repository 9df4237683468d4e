/** The error classifiers of the synchronizer and the upload retry rule. */
module Errors {
  import opened Types

  /** The most upload retries one synchronization round may make. */
  const MaxUploadRetries: int := 2

  /** The error is a partial failure and one of its per-item errors has code `c`. */
  predicate HasItemError(e: Error, c: int)
  {
    Code(e) == PartialFailure && e.CloudKit? &&
    exists id :: id in e.partialErrors && e.partialErrors[id] == c
  }

  /** Server-record-changed, at top level or inside a partial failure. */
  predicate IsServerRecordChangedError(e: Error)
  {
    HasItemError(e, ServerRecordChanged) || Code(e) == ServerRecordChanged
  }

  /** Limit-exceeded, at top level or inside a partial failure. */
  predicate IsLimitExceededError(e: Error)
  {
    HasItemError(e, LimitExceeded) || Code(e) == LimitExceeded
  }

  /** A zone-not-found or user-deleted-zone error; no error is neither. */
  predicate IsZoneNotFoundOrDeletedError(e: Option<Error>)
  {
    e.Some? && (Code(e.value) == ZoneNotFound || Code(e.value) == UserDeletedZone)
  }

  /** Only a CloudKit error (not merely one with the same code) with the
      change-token-expired code triggers the full resynchronization. */
  predicate IsChangeTokenExpired(e: Option<Error>)
  {
    e.Some? && e.value.CloudKit? && e.value.code == ChangeTokenExpired
  }

  /** Whether a failed upload pass is retried, given the retries made so far. */
  predicate ShouldRetryUpload(e: Error, uploadRetries: int)
  {
    if IsServerRecordChangedError(e) || IsLimitExceededError(e) then uploadRetries < MaxUploadRetries
    else false
  }

  /** The retry rule over the raw error: a CloudKit error is retried, below
      two retries, exactly when its own code is server-record-changed or
      limit-exceeded, or it is a partial failure one of whose items reports
      one of those two codes. The synchronizer's own errors are never retried;
      a local error is judged by its code alone, as the classifiers look at
      the code and not at the error's domain. */
  lemma RetryIffRecoverableBelowCap(code: int, items: map<RecordId, int>, k: SyncError, local: int, uploadRetries: int)
    ensures ShouldRetryUpload(CloudKit(code, items), uploadRetries) <==>
            uploadRetries < 2 &&
            (|| code == ServerRecordChanged || code == LimitExceeded
             || (code == PartialFailure &&
                 exists id :: id in items && (items[id] == ServerRecordChanged || items[id] == LimitExceeded)))
    ensures !ShouldRetryUpload(SyncErr(k), uploadRetries)
    ensures ShouldRetryUpload(Local(local), uploadRetries) <==>
            uploadRetries < 2 && (local == ServerRecordChanged || local == LimitExceeded)
  {
    var e := CloudKit(code, items);
    if code == PartialFailure && exists id :: id in items && (items[id] == ServerRecordChanged || items[id] == LimitExceeded) {
      var id :| id in items && (items[id] == ServerRecordChanged || items[id] == LimitExceeded);
      assert HasItemError(e, items[id]);
    }
  }

  /** A conflict or limit reported for a single item of a partial failure is
      enough to retry, whatever the other items report. */
  lemma PartialItemErrorIsRetried(m: map<RecordId, int>, id: RecordId, uploadRetries: int)
    requires id in m && (m[id] == ServerRecordChanged || m[id] == LimitExceeded)
    requires uploadRetries < 2
    ensures ShouldRetryUpload(CloudKit(PartialFailure, m), uploadRetries)
  {
    assert HasItemError(CloudKit(PartialFailure, m), m[id]);
  }

  /** Per-item errors count only under a partial failure: the same item map
      attached to another top-level code is ignored. */
  lemma ItemErrorsIgnoredOutsidePartialFailure(code: int, m: map<RecordId, int>, uploadRetries: int)
    requires code != PartialFailure && code != ServerRecordChanged && code != LimitExceeded
    ensures !ShouldRetryUpload(CloudKit(code, m), uploadRetries)
  {
  }

  /** None of the synchronizer's own errors (cancelled, already syncing, ...)
      is ever retried. */
  lemma SyncErrorsAreNotRetried(k: SyncError, uploadRetries: int)
    ensures !ShouldRetryUpload(SyncErr(k), uploadRetries)
  {
  }

  /** Once two retries were made, no error is retried. */
  lemma NoRetryAtCap(e: Error, uploadRetries: int)
    requires uploadRetries >= MaxUploadRetries
    ensures !ShouldRetryUpload(e, uploadRetries)
  {
  }
}
