/** The model adapter contract, as the synchronizer uses it: one adapter per
    record zone, owning that zone's durable change token, its dirty records and
    its deletion markers. The adapter's storage engine is outside the model;
    each contract call is given the effect stated here. */
module Adapters {
  import opened Types

  datatype Adapter = Adapter(
    recordZoneID: ZoneId,
    serverChangeToken: Option<Token>,  // the durable per-zone cursor
    dirty: seq<Record>,                // local changes waiting to be uploaded
    tombstones: seq<RecordId>,         // records marked for deletion
    received: seq<Record>,             // everything handed to saveChanges(in:), in order
    removed: seq<RecordId>,            // everything handed to deleteRecords(with:), in order
    persists: nat,                     // calls of persistImportedChanges
    importing: bool)                   // between prepareToImport and didFinishImport

  /** Every adapter is registered under its own record zone. */
  ghost predicate KeyedByZone(m: map<ZoneId, Adapter>)
  {
    forall z :: z in m ==> m[z].recordZoneID == z
  }

  /** A zone never synced has no durable token and must be set up on the server first. */
  predicate NeedsZoneSetup(a: Adapter)
  {
    a.serverChangeToken.None?
  }

  /** `recordsToUpload(limit:)`: the first `limit` dirty records (none for a non-positive limit). */
  function RecordsToUpload(a: Adapter, limit: int): (r: seq<Record>)
    ensures |r| <= |a.dirty| && r == a.dirty[..|r|]
    ensures limit <= 0 ==> r == []
    ensures limit > 0 ==> |r| == if limit < |a.dirty| then limit else |a.dirty|
  {
    if limit <= 0 then [] else if limit < |a.dirty| then a.dirty[..limit] else a.dirty
  }

  /** `recordIDsMarkedForDeletion(limit:)`: the first `limit` deletion markers. */
  function RecordIDsMarkedForDeletion(a: Adapter, limit: int): (r: seq<RecordId>)
    ensures |r| <= |a.tombstones| && r == a.tombstones[..|r|]
    ensures limit <= 0 ==> r == []
    ensures limit > 0 ==> |r| == if limit < |a.tombstones| then limit else |a.tombstones|
  {
    if limit <= 0 then [] else if limit < |a.tombstones| then a.tombstones[..limit] else a.tombstones
  }

  function IdsOf(rs: seq<Record>): set<RecordId>
  {
    set r | r in rs :: r.id
  }

  /** The records of `rs` whose identifier is not in `ids`, in order. */
  function WithoutIds(rs: seq<Record>, ids: set<RecordId>): (r: seq<Record>)
    ensures |r| <= |rs|
    ensures forall x :: x in r <==> x in rs && x.id !in ids
  {
    if rs == [] then []
    else if rs[0].id in ids then WithoutIds(rs[1..], ids)
    else [rs[0]] + WithoutIds(rs[1..], ids)
  }

  /** The identifiers of `xs` that are not in `ids`, in order. */
  function Without(xs: seq<RecordId>, ids: set<RecordId>): (r: seq<RecordId>)
    ensures |r| <= |xs|
    ensures forall x :: x in r <==> x in xs && x !in ids
  {
    if xs == [] then []
    else if xs[0] in ids then Without(xs[1..], ids)
    else [xs[0]] + Without(xs[1..], ids)
  }

  /** `didUpload(savedRecords:)`: the saved records are no longer dirty. */
  function DidUpload(a: Adapter, saved: seq<Record>): Adapter
  {
    a.(dirty := WithoutIds(a.dirty, IdsOf(saved)))
  }

  /** `didDelete(recordIDs:)`: the deleted records are no longer marked. */
  function DidDelete(a: Adapter, deleted: seq<RecordId>): Adapter
  {
    a.(tombstones := Without(a.tombstones, set x | x in deleted))
  }

  /** `saveChanges(in:)`: downloaded (or conflicting server) records are applied. */
  function SaveChanges(a: Adapter, records: seq<Record>): Adapter
  {
    a.(received := a.received + records)
  }

  /** `deleteRecords(with:)`: downloaded deletions are applied. */
  function DeleteRecords(a: Adapter, ids: seq<RecordId>): Adapter
  {
    a.(removed := a.removed + ids)
  }

  /** `persistImportedChanges`: the applied changes are committed. */
  function PersistImportedChanges(a: Adapter): Adapter
  {
    a.(persists := a.persists + 1)
  }

  /** `saveToken(_:)`: the durable cursor is replaced, `nil` included. */
  function SaveToken(a: Adapter, t: Option<Token>): Adapter
  {
    a.(serverChangeToken := t)
  }

  function PrepareToImport(a: Adapter): Adapter
  {
    a.(importing := true)
  }

  function DidFinishImport(a: Adapter): Adapter
  {
    a.(importing := false)
  }

  /** `resetSyncCaches()`: the adapter forgets its cursor and its tracking state. */
  function ResetSyncCaches(a: Adapter): Adapter
  {
    a.(serverChangeToken := None, dirty := [], tombstones := [])
  }

  /** The adapters registered under the listed zones, in list order. */
  function ValuesIn(m: map<ZoneId, Adapter>, zs: seq<ZoneId>): (r: seq<Adapter>)
    requires forall i :: 0 <= i < |zs| ==> zs[i] in m
    ensures |r| == |zs|
    ensures forall i :: 0 <= i < |zs| ==> r[i] == m[zs[i]]
  {
    if zs == [] then [] else [m[zs[0]]] + ValuesIn(m, zs[1..])
  }

  /** Every registered adapter gets `prepareToImport`. */
  function PrepareAll(m: map<ZoneId, Adapter>): (r: map<ZoneId, Adapter>)
    ensures r.Keys == m.Keys
    ensures forall z :: z in r ==> r[z].importing && r[z] == m[z].(importing := true)
    ensures KeyedByZone(m) ==> KeyedByZone(r)
  {
    map z | z in m :: PrepareToImport(m[z])
  }

  /** Every registered adapter gets `didFinishImport`. */
  function FinishAll(m: map<ZoneId, Adapter>): (r: map<ZoneId, Adapter>)
    ensures r.Keys == m.Keys
    ensures forall z :: z in r ==> !r[z].importing && r[z] == m[z].(importing := false)
    ensures KeyedByZone(m) ==> KeyedByZone(r)
  {
    map z | z in m :: DidFinishImport(m[z])
  }

  lemma {:induction false} WithoutIdsDropsMember(rs: seq<Record>, ids: set<RecordId>, k: nat)
    requires k < |rs| && rs[k].id in ids
    ensures |WithoutIds(rs, ids)| < |rs|
  {
    if k > 0 {
      WithoutIdsDropsMember(rs[1..], ids, k - 1);
    }
  }

  /** A page the server saved in full leaves strictly fewer dirty records, so
      paging through the dirty set always makes progress. */
  lemma SuccessfulPageShrinksDirty(a: Adapter, limit: int)
    requires RecordsToUpload(a, limit) != []
    ensures |DidUpload(a, RecordsToUpload(a, limit)).dirty| < |a.dirty|
    ensures forall x :: x in RecordsToUpload(a, limit) ==> x !in DidUpload(a, RecordsToUpload(a, limit)).dirty
  {
    var page := RecordsToUpload(a, limit);
    assert a.dirty[0] == page[0];
    WithoutIdsDropsMember(a.dirty, IdsOf(page), 0);
  }

  lemma {:induction false} WithoutDropsMember(xs: seq<RecordId>, ids: set<RecordId>, k: nat)
    requires k < |xs| && xs[k] in ids
    ensures |Without(xs, ids)| < |xs|
  {
    if k > 0 {
      WithoutDropsMember(xs[1..], ids, k - 1);
    }
  }

  /** Likewise for a page of deletions the server confirmed in full. */
  lemma SuccessfulDeletionPageShrinksTombstones(a: Adapter, limit: int)
    requires RecordIDsMarkedForDeletion(a, limit) != []
    ensures |DidDelete(a, RecordIDsMarkedForDeletion(a, limit)).tombstones| < |a.tombstones|
  {
    var page := RecordIDsMarkedForDeletion(a, limit);
    assert a.tombstones[0] == page[0];
    WithoutDropsMember(a.tombstones, set x | x in page, 0);
  }
}
