/** The merge step: each adapter with an active token commits its imported
    changes and, once that succeeded, saves the zone's active token. */
module Merge {
  import opened Types
  import opened Adapters
  import opened Runner
  import opened Tokens

  /** `mergeChangesIntoAdapter` for the adapter registered under `z`:
      `persistImportedChanges` (whose outcome `persist` gives), then, on
      success, `saveToken` with the zone's active token when there is one. */
  function MergeInto(tokens: map<ZoneId, Token>, persist: ZoneId -> Option<Error>,
                     m: map<ZoneId, Adapter>, z: ZoneId): (map<ZoneId, Adapter>, Option<Error>)
  {
    if z !in m then (m, None)
    else
      var a := PersistImportedChanges(m[z]);
      if persist(z).Some? then (m[z := a], persist(z))
      else
        var token := ActiveToken(tokens, a.recordZoneID);
        if token.Some? then (m[z := SaveToken(a, token)], None) else (m[z := a], None)
  }

  /** The merge step as the closure handed to `sequential`. */
  function MergeStep(tokens: map<ZoneId, Token>, persist: ZoneId -> Option<Error>)
    : (map<ZoneId, Adapter>, ZoneId) -> (map<ZoneId, Adapter>, Option<Error>)
  {
    (m, z) => MergeInto(tokens, persist, m, z)
  }

  /** What a successful merge leaves for a zone's adapter: its changes
      committed and the zone's active token, if any, saved. */
  function Merged(tokens: map<ZoneId, Token>, a: Adapter): Adapter
  {
    var p := PersistImportedChanges(a);
    var token := ActiveToken(tokens, a.recordZoneID);
    if token.Some? then SaveToken(p, token) else p
  }

  /** A merge keeps the registered zones, keeps every adapter keyed by its
      zone and leaves adapters outside the list alone; when it completes
      without error every listed adapter has committed its changes and saved
      its zone's active token (and kept its own token when the zone has none). */
  lemma {:induction false} MergeResult(tokens: map<ZoneId, Token>, persist: ZoneId -> Option<Error>,
                                       zs: seq<ZoneId>, m: map<ZoneId, Adapter>)
    requires KeyedByZone(m)
    requires forall i, j :: 0 <= i < j < |zs| ==> zs[i] != zs[j]
    requires forall z :: z in zs ==> z in m
    ensures var r := Sequential(zs, m, MergeStep(tokens, persist));
            && r.state.Keys == m.Keys
            && KeyedByZone(r.state)
            && (forall z :: z in m && z !in zs ==> r.state[z] == m[z])
            && (r.outcome.None? ==> forall z :: z in zs ==> r.state[z] == Merged(tokens, m[z]))
  {
    if zs != [] {
      var z := zs[0];
      var (m', e) := MergeInto(tokens, persist, m, z);
      assert MergeStep(tokens, persist)(m, z) == (m', e);
      if e.None? {
        assert m'[z] == Merged(tokens, m[z]);
        MergeResult(tokens, persist, zs[1..], m');
        forall y | y in zs[1..] ensures y != z {
          var i :| 0 <= i < |zs[1..]| && zs[1..][i] == y;
          assert zs[i + 1] == y;
        }
      }
    }
  }
}
