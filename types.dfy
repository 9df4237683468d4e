/** Values the synchronizer passes around: identifiers, change tokens and the
    error taxonomy it inspects. */
module Types {

  datatype Option<+T> = None | Some(value: T)

  /** A record zone (partition) identifier. */
  type ZoneId = int
  /** An opaque server change token; only stored and replayed. */
  type Token = int
  type RecordId = int
  /** A CloudKit record: its identifier and the version the server holds. */
  datatype Record = Record(id: RecordId, version: int)
  /** A completion block handed to `synchronize`, identified by a handle. */
  type Handle = int

  /** How the synchronizer is configured: download and upload, or only download. */
  datatype SyncMode = Sync | DownloadOnly

  /** The synchronizer's own errors, with their raw values. */
  datatype SyncError = AlreadySyncing | HigherModelVersionFound | RecordNotFound | Cancelled | NotAllow

  function SyncErrorCode(e: SyncError): (c: int)
    ensures 0 <= c <= 4
  {
    match e
    case AlreadySyncing => 0
    case HigherModelVersionFound => 1
    case RecordNotFound => 2
    case Cancelled => 3
    case NotAllow => 4
  }

  /** The raw values number the cases without gaps or repeats: distinct
      errors have distinct codes, and every code in 0..4 belongs to a case. */
  lemma SyncErrorCodesAreRawValues(e1: SyncError, e2: SyncError, c: int)
    ensures SyncErrorCode(e1) == SyncErrorCode(e2) <==> e1 == e2
    ensures 0 <= c <= 4 ==> exists e :: SyncErrorCode(e) == c
  {
    if 0 <= c <= 4 {
      var e := if c == 0 then AlreadySyncing else if c == 1 then HigherModelVersionFound
               else if c == 2 then RecordNotFound else if c == 3 then Cancelled else NotAllow;
      assert SyncErrorCode(e) == c;
    }
  }

  // Raw values of the CloudKit error codes the engine inspects.
  const PartialFailure: int := 2
  const ServerRecordChanged: int := 14
  const ChangeTokenExpired: int := 21
  const ZoneNotFound: int := 26
  const LimitExceeded: int := 27
  const UserDeletedZone: int := 28

  /** An error as the engine sees it: its own `SyncError`, a CloudKit error
      (with the per-item error codes of a partial failure, empty when the
      error carries none), or an opaque error raised by local storage. */
  datatype Error =
    | SyncErr(kind: SyncError)
    | CloudKit(code: int, partialErrors: map<RecordId, int>)
    | Local(localCode: int)

  /** The error's code as seen through `NSError.code`. */
  function Code(e: Error): int
  {
    match e
    case SyncErr(k) => SyncErrorCode(k)
    case CloudKit(c, _) => c
    case Local(c) => c
  }

  /** A completion block invocation: which block, and with what error. */
  datatype Delivery = Delivery(handle: Handle, result: Option<Error>)

  /** The result CloudKit reports for one zone of a zone-changes fetch. */
  datatype ZoneResult = ZoneResult(
    error: Option<Error>,
    serverChangeToken: Option<Token>,
    downloadedRecords: seq<Record>,
    deletedRecordIDs: seq<RecordId>,
    moreComing: bool)
}
