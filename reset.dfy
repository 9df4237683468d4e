/** `resetSyncCaches(includingAdapters:)`: each registered adapter forgets its
    cursor and tracking state, in turn, until one of them throws. */
module Reset {
  import opened Types
  import opened Adapters
  import opened Runner

  /** One adapter's `resetSyncCaches()`, whose outcome `fails` gives: a thrown
      error leaves the adapter as it was and stops the loop. */
  function ResetInto(fails: ZoneId -> Option<Error>, m: map<ZoneId, Adapter>, z: ZoneId): (map<ZoneId, Adapter>, Option<Error>)
  {
    if z !in m then (m, None)
    else if fails(z).Some? then (m, fails(z))
    else (m[z := ResetSyncCaches(m[z])], None)
  }

  /** The loop body as a step of the runner. */
  function ResetStep(fails: ZoneId -> Option<Error>): (map<ZoneId, Adapter>, ZoneId) -> (map<ZoneId, Adapter>, Option<Error>)
  {
    (m, z) => ResetInto(fails, m, z)
  }

  /** The loop keeps the registered zones and every adapter under its own
      zone, and touches no adapter outside the list. When no adapter throws,
      every listed adapter has been reset; when one throws, the error is that
      adapter's. */
  lemma {:induction false} ResetResult(fails: ZoneId -> Option<Error>, zs: seq<ZoneId>, m: map<ZoneId, Adapter>)
    requires KeyedByZone(m)
    requires forall i, j :: 0 <= i < j < |zs| ==> zs[i] != zs[j]
    requires forall z :: z in zs ==> z in m
    ensures var r := Sequential(zs, m, ResetStep(fails));
            && r.state.Keys == m.Keys
            && KeyedByZone(r.state)
            && (forall z :: z in m && z !in zs ==> r.state[z] == m[z])
            && (r.outcome.None? ==> forall z :: z in zs ==> r.state[z] == ResetSyncCaches(m[z]))
            && (r.outcome.Some? ==> exists z :: z in zs && r.outcome == fails(z))
  {
    if zs != [] {
      var z := zs[0];
      var (m', e) := ResetInto(fails, m, z);
      assert ResetStep(fails)(m, z) == (m', e);
      if e.None? {
        ResetResult(fails, zs[1..], m');
        forall y | y in zs[1..] ensures y != z {
          var i :| 0 <= i < |zs[1..]| && zs[1..][i] == y;
          assert zs[i + 1] == y;
        }
        var r := Sequential(zs, m, ResetStep(fails));
        if r.outcome.Some? {
          var y :| y in zs[1..] && r.outcome == fails(y);
          assert y in zs;
        }
      }
    }
  }
}
