/** Active-token bookkeeping: which zones a round fetches and with which
    change tokens, and how per-zone fetch results move those tokens. */
module Tokens {
  import opened Types
  import opened Errors
  import opened Adapters

  /** Assigning an optional token into the active map: `nil` removes the key,
      as assigning `nil` into a Swift dictionary does. */
  function SetToken(m: map<ZoneId, Token>, z: ZoneId, t: Option<Token>): (r: map<ZoneId, Token>)
    ensures t.Some? ==> z in r && r[z] == t.value
    ensures t.None? ==> z !in r
    ensures forall y :: y != z ==> (y in r <==> y in m) && (y in r ==> r[y] == m[y])
  {
    if t.Some? then m[z := t.value] else m - {z}
  }

  /** Reading a zone's entry of the active map: nil when the zone has none. */
  function ActiveToken(m: map<ZoneId, Token>, z: ZoneId): (t: Option<Token>)
    ensures t.Some? <==> z in m
    ensures t.Some? ==> t.value == m[z]
  {
    if z in m then Some(m[z]) else None
  }

  /** The elements of `zs` that belong to `keep`, in order, duplicates kept. */
  function Filter(zs: seq<ZoneId>, keep: set<ZoneId>): (r: seq<ZoneId>)
    ensures |r| <= |zs|
    ensures forall z :: z in r <==> z in zs && z in keep
  {
    if zs == [] then []
    else (if zs[0] in keep then [zs[0]] else []) + Filter(zs[1..], keep)
  }

  /** A list of zones without repetitions. */
  predicate Distinct(zs: seq<ZoneId>)
  {
    forall i, j :: 0 <= i < j < |zs| ==> zs[i] != zs[j]
  }

  /** A list without repetitions has as many entries as it has distinct members. */
  lemma {:induction false} DistinctCard(zs: seq<ZoneId>)
    requires Distinct(zs)
    ensures |zs| == |set z | z in zs|
  {
    if zs != [] {
      var rest := zs[1..];
      assert Distinct(rest) by {
        forall i, j | 0 <= i < j < |rest| ensures rest[i] != rest[j] {
          assert rest[i] == zs[i + 1] && rest[j] == zs[j + 1];
        }
      }
      DistinctCard(rest);
      assert zs[0] !in rest by {
        forall k | 0 <= k < |rest| ensures rest[k] != zs[0] {
          assert rest[k] == zs[k + 1];
        }
      }
      assert (set z | z in zs) == (set z | z in rest) + {zs[0]};
    }
  }

  /** Filtering a list without repetitions leaves a list without repetitions. */
  lemma {:induction false} FilterDistinct(zs: seq<ZoneId>, keep: set<ZoneId>)
    requires Distinct(zs)
    ensures Distinct(Filter(zs, keep))
  {
    if zs != [] {
      var rest := zs[1..];
      forall i, j | 0 <= i < j < |rest| ensures rest[i] != rest[j] {
        assert rest[i] == zs[i + 1] && rest[j] == zs[j + 1];
      }
      FilterDistinct(rest, keep);
      assert zs[0] !in rest by {
        forall k | 0 <= k < |rest| ensures rest[k] != zs[0] {
          assert rest[k] == zs[k + 1];
        }
      }
      var head := if zs[0] in keep then [zs[0]] else [];
      var tail := Filter(rest, keep);
      assert Filter(zs, keep) == head + tail;
      forall i, j | 0 <= i < j < |head + tail| ensures (head + tail)[i] != (head + tail)[j] {
        assert (head + tail)[j] == tail[j - |head|];
        if i < |head| {
          assert tail[j - |head|] in tail;
        } else {
          assert (head + tail)[i] == tail[i - |head|];
        }
      }
    }
  }

  /** The active map holds exactly the non-nil durable tokens of the zones in `zs`. */
  ghost predicate TokensMatch(tokens: map<ZoneId, Token>, zs: seq<ZoneId>, adapters: map<ZoneId, Adapter>)
  {
    (forall z :: z in zs ==> z in adapters) &&
    (forall z :: z in tokens <==> z in zs && adapters[z].serverChangeToken.Some?) &&
    (forall z :: z in tokens ==> tokens[z] == adapters[z].serverChangeToken.value)
  }

  // ---------------------------------------------------------------------------
  // loadTokens(for:loadAdapters:)

  /** The loop state of `loadTokens`: the zones kept so far, the active map
      being rebuilt, and the adapter dictionary. */
  datatype Loaded = Loaded(filtered: seq<ZoneId>, tokens: map<ZoneId, Token>, adapters: map<ZoneId, Adapter>)

  /** One iteration: ask the provider for a missing adapter when allowed
      (a supplied adapter is registered and prepared for import), then keep
      the zone and its adapter's token when it has an adapter. */
  function LoadStep(acc: Loaded, z: ZoneId, loadAdapters: bool, provider: ZoneId -> Option<Adapter>): Loaded
  {
    var adapters :=
      if z !in acc.adapters && loadAdapters && provider(z).Some?
      then acc.adapters[z := PrepareToImport(provider(z).value)]
      else acc.adapters;
    if z in adapters
    then Loaded(acc.filtered + [z], SetToken(acc.tokens, z, adapters[z].serverChangeToken), adapters)
    else acc.(adapters := adapters)
  }

  function LoadTokensFrom(zones: seq<ZoneId>, loadAdapters: bool, provider: ZoneId -> Option<Adapter>, acc: Loaded): Loaded
  {
    if zones == [] then acc
    else LoadTokensFrom(zones[1..], loadAdapters, provider, LoadStep(acc, zones[0], loadAdapters, provider))
  }

  /** `loadTokens`: starts from an empty active map. */
  function LoadTokens(zones: seq<ZoneId>, loadAdapters: bool, provider: ZoneId -> Option<Adapter>,
                      adapters: map<ZoneId, Adapter>): Loaded
  {
    LoadTokensFrom(zones, loadAdapters, provider, Loaded([], map[], adapters))
  }

  /** The zones that end up with an adapter: those that had one, plus, when
      adapters may be loaded, those the provider supplies one for. */
  ghost predicate GetsAdapter(z: ZoneId, zones: seq<ZoneId>, loadAdapters: bool, provider: ZoneId -> Option<Adapter>,
                              adapters: map<ZoneId, Adapter>)
  {
    z in adapters || (loadAdapters && z in zones && provider(z).Some?)
  }

  lemma {:induction false} LoadTokensFromAdapters(zones: seq<ZoneId>, loadAdapters: bool,
                                                  provider: ZoneId -> Option<Adapter>, acc: Loaded)
    ensures var r := LoadTokensFrom(zones, loadAdapters, provider, acc);
            && (forall z :: z in r.adapters <==> GetsAdapter(z, zones, loadAdapters, provider, acc.adapters))
            && (forall z :: z in acc.adapters ==> r.adapters[z] == acc.adapters[z])
            && (forall z :: z in r.adapters && z !in acc.adapters ==> r.adapters[z] == PrepareToImport(provider(z).value))
  {
    if zones != [] {
      var next := LoadStep(acc, zones[0], loadAdapters, provider);
      LoadTokensFromAdapters(zones[1..], loadAdapters, provider, next);
    }
  }

  lemma LoadStepKeepsMatch(acc: Loaded, z: ZoneId, loadAdapters: bool, provider: ZoneId -> Option<Adapter>)
    requires TokensMatch(acc.tokens, acc.filtered, acc.adapters)
    ensures var next := LoadStep(acc, z, loadAdapters, provider);
            TokensMatch(next.tokens, next.filtered, next.adapters)
  {
  }

  lemma {:induction false} LoadTokensFromMatch(zones: seq<ZoneId>, loadAdapters: bool,
                                               provider: ZoneId -> Option<Adapter>, acc: Loaded)
    requires TokensMatch(acc.tokens, acc.filtered, acc.adapters)
    ensures var r := LoadTokensFrom(zones, loadAdapters, provider, acc);
            TokensMatch(r.tokens, r.filtered, r.adapters)
  {
    if zones != [] {
      LoadStepKeepsMatch(acc, zones[0], loadAdapters, provider);
      LoadTokensFromMatch(zones[1..], loadAdapters, provider, LoadStep(acc, zones[0], loadAdapters, provider));
    }
  }

  lemma {:induction false} LoadTokensFromFiltered(zones: seq<ZoneId>, loadAdapters: bool,
                                                  provider: ZoneId -> Option<Adapter>, acc: Loaded)
    ensures var r := LoadTokensFrom(zones, loadAdapters, provider, acc);
            r.filtered == acc.filtered + Filter(zones, r.adapters.Keys)
  {
    if zones != [] {
      var z := zones[0];
      var next := LoadStep(acc, z, loadAdapters, provider);
      LoadTokensFromAdapters(zones[1..], loadAdapters, provider, next);
      LoadTokensFromFiltered(zones[1..], loadAdapters, provider, next);
      var r := LoadTokensFrom(zones, loadAdapters, provider, acc);
      assert r == LoadTokensFrom(zones[1..], loadAdapters, provider, next);
      assert z in next.adapters <==> z in r.adapters;
      assert next.filtered == acc.filtered + (if z in r.adapters then [z] else []);
      assert Filter(zones, r.adapters.Keys) == (if z in r.adapters then [z] else []) + Filter(zones[1..], r.adapters.Keys);
    }
  }

  /** `loadTokens` returns, in input order, the zones that have an adapter
      (existing, or newly supplied when `loadAdapters`), and leaves the active
      map holding exactly those zones' non-nil adapter tokens. */
  lemma LoadTokensResult(zones: seq<ZoneId>, loadAdapters: bool, provider: ZoneId -> Option<Adapter>,
                         adapters: map<ZoneId, Adapter>)
    ensures var r := LoadTokens(zones, loadAdapters, provider, adapters);
            && r.filtered == Filter(zones, r.adapters.Keys)
            && (forall z :: z in r.adapters <==> GetsAdapter(z, zones, loadAdapters, provider, adapters))
            && (forall z :: z in adapters ==> r.adapters[z] == adapters[z])
            && (forall z :: z in r.adapters && z !in adapters ==> r.adapters[z] == PrepareToImport(provider(z).value))
            && (forall z :: z in r.tokens <==> z in r.filtered && r.adapters[z].serverChangeToken.Some?)
            && (forall z :: z in r.tokens ==> r.tokens[z] == r.adapters[z].serverChangeToken.value)
  {
    var acc := Loaded([], map[], adapters);
    LoadTokensFromAdapters(zones, loadAdapters, provider, acc);
    LoadTokensFromFiltered(zones, loadAdapters, provider, acc);
    LoadTokensFromMatch(zones, loadAdapters, provider, acc);
  }

  /** A provider that supplies, for each zone, an adapter of that zone. */
  ghost predicate ProviderKeyed(provider: ZoneId -> Option<Adapter>)
  {
    forall z :: provider(z).Some? ==> provider(z).value.recordZoneID == z
  }

  /** With a well-behaved provider, `loadTokens` keeps every adapter under its own zone. */
  lemma LoadTokensKeyed(zones: seq<ZoneId>, loadAdapters: bool, provider: ZoneId -> Option<Adapter>,
                        adapters: map<ZoneId, Adapter>)
    requires KeyedByZone(adapters) && ProviderKeyed(provider)
    ensures KeyedByZone(LoadTokens(zones, loadAdapters, provider, adapters).adapters)
  {
    LoadTokensResult(zones, loadAdapters, provider, adapters);
  }

  /** Without `loadAdapters` the adapter dictionary is left as it was. */
  lemma {:induction false} LoadTokensKeepsAdapters(zones: seq<ZoneId>, provider: ZoneId -> Option<Adapter>, acc: Loaded)
    ensures LoadTokensFrom(zones, false, provider, acc).adapters == acc.adapters
  {
    if zones != [] {
      LoadTokensKeepsAdapters(zones[1..], provider, LoadStep(acc, zones[0], false, provider));
    }
  }

  /** Without `loadAdapters` the provider is never consulted. */
  lemma {:induction false} LoadTokensIgnoresProvider(zones: seq<ZoneId>, p: ZoneId -> Option<Adapter>,
                                                     q: ZoneId -> Option<Adapter>, acc: Loaded)
    ensures LoadTokensFrom(zones, false, p, acc) == LoadTokensFrom(zones, false, q, acc)
  {
    if zones != [] {
      assert LoadStep(acc, zones[0], false, p) == LoadStep(acc, zones[0], false, q);
      LoadTokensIgnoresProvider(zones[1..], p, q, LoadStep(acc, zones[0], false, p));
    }
  }

  // ---------------------------------------------------------------------------
  // The result handler of fetchZoneChanges

  /** The loop state of the zone-changes handler. `error` is the local error
      variable of the source; `deletedNotices` the zones reported deleted. */
  datatype Applied = Applied(
    tokens: map<ZoneId, Token>,
    adapters: map<ZoneId, Adapter>,
    pending: seq<ZoneId>,
    error: Option<Error>,
    deletedNotices: seq<ZoneId>)

  /** One zone's successful result: its token becomes active and its adapter,
      if any, gets the downloaded and the deleted records. */
  function ApplyZone(acc: Applied, z: ZoneId, res: ZoneResult): Applied
  {
    var adapters :=
      if z in acc.adapters
      then acc.adapters[z := DeleteRecords(SaveChanges(acc.adapters[z], res.downloadedRecords), res.deletedRecordIDs)]
      else acc.adapters;
    Applied(SetToken(acc.tokens, z, res.serverChangeToken), adapters,
            acc.pending + (if res.moreComing then [z] else []), acc.error, acc.deletedNotices)
  }

  /** The loop over the zone results. On a failed zone the source asks whether
      the LOCAL `error` (not the zone's error) is a zone-not-found error; that
      variable is still nil, so every failed zone stops the loop with its error. */
  function ApplyZoneResults(results: seq<(ZoneId, ZoneResult)>, acc: Applied): Applied
  {
    if results == [] then acc
    else
      var (z, res) := results[0];
      if res.error.Some? then
        if IsZoneNotFoundOrDeletedError(acc.error)
        then ApplyZoneResults(results[1..], acc.(deletedNotices := acc.deletedNotices + [z]))
        else acc.(error := res.error)
      else ApplyZoneResults(results[1..], ApplyZone(acc, z, res))
  }

  /** The index of the first failed zone result, or the length when none failed. */
  function FirstFailure(results: seq<(ZoneId, ZoneResult)>): (k: nat)
    ensures k <= |results|
    ensures forall i :: 0 <= i < k ==> results[i].1.error.None?
    ensures k < |results| ==> results[k].1.error.Some?
  {
    if results == [] then 0
    else if results[0].1.error.Some? then 0
    else 1 + FirstFailure(results[1..])
  }

  /** The zones whose results report more changes coming, in order. */
  function MoreComing(results: seq<(ZoneId, ZoneResult)>): (r: seq<ZoneId>)
    ensures |r| <= |results|
  {
    if results == [] then []
    else (if results[0].1.moreComing then [results[0].0] else []) + MoreComing(results[1..])
  }

  ghost predicate DistinctZones(results: seq<(ZoneId, ZoneResult)>)
  {
    forall i, j :: 0 <= i < j < |results| ==> results[i].0 != results[j].0
  }

  /** What a successful zone result leaves for its zone: the token it
      reported (absent when nil) and its records applied to the adapter. */
  ghost predicate ZoneApplied(r: Applied, acc: Applied, z: ZoneId, res: ZoneResult)
  {
    (res.serverChangeToken.Some? <==> z in r.tokens) &&
    (z in r.tokens ==> r.tokens[z] == res.serverChangeToken.value) &&
    (z in r.adapters <==> z in acc.adapters) &&
    (z in acc.adapters ==>
      r.adapters[z] == DeleteRecords(SaveChanges(acc.adapters[z], res.downloadedRecords), res.deletedRecordIDs))
  }

  ghost predicate ZoneUntouched(r: Applied, acc: Applied, z: ZoneId)
  {
    (z in r.tokens <==> z in acc.tokens) && (z in r.tokens ==> r.tokens[z] == acc.tokens[z]) &&
    (z in r.adapters <==> z in acc.adapters) && (z in r.adapters ==> r.adapters[z] == acc.adapters[z])
  }

  lemma DistinctTail(results: seq<(ZoneId, ZoneResult)>)
    requires results != [] && DistinctZones(results)
    ensures DistinctZones(results[1..])
    ensures forall i :: 0 <= i < |results| - 1 ==> results[1..][i].0 != results[0].0
  {
    forall i, j | 0 <= i < j < |results| - 1 ensures results[1..][i].0 != results[1..][j].0 {
      assert results[1..][i] == results[i + 1] && results[1..][j] == results[j + 1];
    }
    forall i | 0 <= i < |results| - 1 ensures results[1..][i].0 != results[0].0 {
      assert results[1..][i] == results[i + 1];
    }
  }

  /** The handler's error and re-fetch list: the first failed zone's error
      ends the loop, and only zones before it can be re-fetched. No zone is
      ever reported deleted. */
  lemma {:induction false} ApplyZoneResultsOutcome(results: seq<(ZoneId, ZoneResult)>, acc: Applied)
    requires acc.error.None?
    ensures var r := ApplyZoneResults(results, acc);
            var k := FirstFailure(results);
            && r.error == (if k < |results| then results[k].1.error else None)
            && r.pending == acc.pending + MoreComing(results[..k])
            && r.deletedNotices == acc.deletedNotices
  {
    if results != [] {
      var (z, res) := results[0];
      if res.error.None? {
        ApplyZoneResultsOutcome(results[1..], ApplyZone(acc, z, res));
        var k := FirstFailure(results);
        assert results[..k] == [results[0]] + results[1..][..k - 1];
      } else {
        assert results[..0] == [];
      }
    }
  }

  /** Zones from the first failure on, and zones not reported, keep their
      active token and their adapter. */
  lemma {:induction false} ApplyZoneResultsUntouched(results: seq<(ZoneId, ZoneResult)>, acc: Applied, y: ZoneId)
    requires acc.error.None?
    requires forall i :: 0 <= i < FirstFailure(results) ==> results[i].0 != y
    ensures ZoneUntouched(ApplyZoneResults(results, acc), acc, y)
  {
    if results != [] {
      var (z, res) := results[0];
      if res.error.None? {
        assert results[0].0 != y;
        forall i | 0 <= i < FirstFailure(results[1..]) ensures results[1..][i].0 != y {
          assert results[1..][i] == results[i + 1];
        }
        ApplyZoneResultsUntouched(results[1..], ApplyZone(acc, z, res), y);
      }
    }
  }

  /** Each zone before the first failure gets the token it reported and has
      its downloaded and deleted records applied to its adapter. */
  lemma {:induction false} ApplyZoneResultsApplied(results: seq<(ZoneId, ZoneResult)>, acc: Applied, i: nat)
    requires acc.error.None?
    requires DistinctZones(results)
    requires i < FirstFailure(results)
    ensures ZoneApplied(ApplyZoneResults(results, acc), acc, results[i].0, results[i].1)
  {
    var (z, res) := results[0];
    var next := ApplyZone(acc, z, res);
    DistinctTail(results);
    if i == 0 {
      ApplyZoneResultsUntouched(results[1..], next, z);
    } else {
      assert results[1..][i - 1] == results[i];
      ApplyZoneResultsApplied(results[1..], next, i - 1);
    }
  }

  /** Applying zone results keeps every adapter under its own zone. */
  lemma {:induction false} ApplyZoneResultsKeyed(results: seq<(ZoneId, ZoneResult)>, acc: Applied)
    requires KeyedByZone(acc.adapters)
    ensures KeyedByZone(ApplyZoneResults(results, acc).adapters)
  {
    if results != [] && results[0].1.error.None? {
      ApplyZoneResultsKeyed(results[1..], ApplyZone(acc, results[0].0, results[0].1));
    } else if results != [] && IsZoneNotFoundOrDeletedError(acc.error) {
      ApplyZoneResultsKeyed(results[1..], acc.(deletedNotices := acc.deletedNotices + [results[0].0]));
    }
  }

  /** As written, even a zone-not-found result aborts the round rather than
      being treated as a deleted zone. */
  lemma ZoneNotFoundAborts(z: ZoneId, res: ZoneResult, rest: seq<(ZoneId, ZoneResult)>, acc: Applied)
    requires acc.error.None?
    requires res.error.Some? && IsZoneNotFoundOrDeletedError(res.error)
    ensures ApplyZoneResults([(z, res)] + rest, acc).error == res.error
    ensures ApplyZoneResults([(z, res)] + rest, acc).deletedNotices == acc.deletedNotices
  {
    assert ([(z, res)] + rest)[0] == (z, res);
  }
  /** The zone-results loop as evidently intended: a failed zone whose OWN
      error is zone-not-found or user-deleted-zone is reported deleted and the
      loop goes on; any other failure stops the loop with that error. */
  function ApplyZoneResultsIntended(results: seq<(ZoneId, ZoneResult)>, acc: Applied): Applied
  {
    if results == [] then acc
    else
      var (z, res) := results[0];
      if res.error.Some? then
        if IsZoneNotFoundOrDeletedError(res.error)
        then ApplyZoneResultsIntended(results[1..], acc.(deletedNotices := acc.deletedNotices + [z]))
        else acc.(error := res.error)
      else ApplyZoneResultsIntended(results[1..], ApplyZone(acc, z, res))
  }

  /** A zone result whose failure stops the intended loop. */
  predicate Aborts(res: ZoneResult)
  {
    res.error.Some? && !IsZoneNotFoundOrDeletedError(res.error)
  }

  /** The zones whose results say the zone was not found or was deleted, in order. */
  function DeletedZones(results: seq<(ZoneId, ZoneResult)>): (r: seq<ZoneId>)
    ensures |r| <= |results|
  {
    if results == [] then []
    else (if IsZoneNotFoundOrDeletedError(results[0].1.error) then [results[0].0] else []) + DeletedZones(results[1..])
  }

  /** With no stopping failure, the intended loop ends without error and
      reports every not-found or deleted zone to the provider, in order. */
  lemma {:induction false} IntendedReportsDeletedZones(results: seq<(ZoneId, ZoneResult)>, acc: Applied)
    requires acc.error.None?
    requires forall i :: 0 <= i < |results| ==> !Aborts(results[i].1)
    ensures var r := ApplyZoneResultsIntended(results, acc);
            r.error.None? && r.deletedNotices == acc.deletedNotices + DeletedZones(results)
  {
    if results != [] {
      var (z, res) := results[0];
      assert !Aborts(results[0].1);
      forall i | 0 <= i < |results[1..]| ensures !Aborts(results[1..][i].1) {
        assert results[1..][i] == results[i + 1];
      }
      var r := ApplyZoneResultsIntended(results, acc);
      if res.error.Some? {
        assert IsZoneNotFoundOrDeletedError(res.error);
        var next := acc.(deletedNotices := acc.deletedNotices + [z]);
        assert r == ApplyZoneResultsIntended(results[1..], next);
        assert DeletedZones(results) == [z] + DeletedZones(results[1..]);
        IntendedReportsDeletedZones(results[1..], next);
        assert acc.deletedNotices + DeletedZones(results) == next.deletedNotices + DeletedZones(results[1..]);
      } else {
        var next := ApplyZone(acc, z, res);
        assert r == ApplyZoneResultsIntended(results[1..], next);
        assert DeletedZones(results) == DeletedZones(results[1..]);
        IntendedReportsDeletedZones(results[1..], next);
      }
    }
  }

  /** In the intended loop a zone that appears in no result keeps its active
      token and its adapter. */
  lemma {:induction false} IntendedUntouched(results: seq<(ZoneId, ZoneResult)>, acc: Applied, y: ZoneId)
    requires forall i :: 0 <= i < |results| ==> results[i].0 != y
    ensures ZoneUntouched(ApplyZoneResultsIntended(results, acc), acc, y)
  {
    if results != [] {
      var (z, res) := results[0];
      assert results[0].0 != y;
      forall i | 0 <= i < |results[1..]| ensures results[1..][i].0 != y {
        assert results[1..][i] == results[i + 1];
      }
      if res.error.Some? {
        if IsZoneNotFoundOrDeletedError(res.error) {
          IntendedUntouched(results[1..], acc.(deletedNotices := acc.deletedNotices + [z]), y);
        }
      } else {
        IntendedUntouched(results[1..], ApplyZone(acc, z, res), y);
      }
    }
  }

  /** In the intended loop a deleted zone does not stop the others: with no
      stopping failure, every successful zone, before or after a deleted one,
      gets its token and its records applied. */
  lemma {:induction false} IntendedAppliesOtherZones(results: seq<(ZoneId, ZoneResult)>, acc: Applied, i: nat)
    requires DistinctZones(results)
    requires forall j :: 0 <= j < |results| ==> !Aborts(results[j].1)
    requires i < |results| && results[i].1.error.None?
    ensures ZoneApplied(ApplyZoneResultsIntended(results, acc), acc, results[i].0, results[i].1)
  {
    var (z, res) := results[0];
    DistinctTail(results);
    forall j | 0 <= j < |results[1..]| ensures !Aborts(results[1..][j].1) {
      assert results[1..][j] == results[j + 1];
    }
    if i == 0 {
      IntendedUntouched(results[1..], ApplyZone(acc, z, res), z);
    } else {
      assert results[1..][i - 1] == results[i];
      assert !Aborts(results[0].1);
      if res.error.Some? {
        IntendedAppliesOtherZones(results[1..], acc.(deletedNotices := acc.deletedNotices + [z]), i - 1);
      } else {
        var next := ApplyZone(acc, z, res);
        IntendedAppliesOtherZones(results[1..], next, i - 1);
        assert results[i].0 != z;
      }
    }
  }

  /** The discrepancy on one input: a zone-not-found result followed by a
      successful zone. As written the round stops with the not-found error and
      the second zone's token is never recorded; as intended the first zone is
      reported deleted and the second is applied. */
  lemma ZoneNotFoundCounterexample()
    ensures var nf := ZoneResult(Some(CloudKit(ZoneNotFound, map[])), None, [], [], false);
            var ok := ZoneResult(None, Some(7), [], [], false);
            var acc := Applied(map[], map[], [], None, []);
            var results := [(1, nf), (2, ok)];
            && ApplyZoneResults(results, acc).error == nf.error
            && 2 !in ApplyZoneResults(results, acc).tokens
            && ApplyZoneResults(results, acc).deletedNotices == []
            && ApplyZoneResultsIntended(results, acc).error.None?
            && ApplyZoneResultsIntended(results, acc).deletedNotices == [1]
            && ApplyZoneResultsIntended(results, acc).tokens == map[2 := 7]
  {
    var nf := ZoneResult(Some(CloudKit(ZoneNotFound, map[])), None, [], [], false);
    var ok := ZoneResult(None, Some(7), [], [], false);
    var acc := Applied(map[], map[], [], None, []);
    var results := [(1, nf), (2, ok)];
    assert results[1..] == [(2, ok)];
    assert IsZoneNotFoundOrDeletedError(nf.error);
    assert results[0] == (1, nf);
    var a1 := acc.(deletedNotices := acc.deletedNotices + [1]);
    assert a1.deletedNotices == [1];
    assert ApplyZoneResultsIntended(results, acc) == ApplyZoneResultsIntended([(2, ok)], a1);
    assert [(2, ok)][1..] == [];
    assert ApplyZoneResultsIntended([(2, ok)], a1) == ApplyZone(a1, 2, ok);
  }


  // ---------------------------------------------------------------------------
  // The result handler of updateServerToken

  /** The loop state of the reconciliation handler. */
  datatype Reconciled = Reconciled(
    tokens: map<ZoneId, Token>,
    adapters: map<ZoneId, Adapter>,
    pending: seq<ZoneId>,
    needsToRefetch: bool)

  /** A zone result that carries downloaded or deleted records. */
  predicate HasDeltas(res: ZoneResult)
  {
    |res.downloadedRecords| > 0 || |res.deletedRecordIDs| > 0
  }

  /** One iteration: a zone with deltas forces a refetch; a clean zone gets
      its token made active and saved to its adapter; a zone with more
      coming is queued either way. */
  function ReconcileStep(acc: Reconciled, z: ZoneId, res: ZoneResult): Reconciled
  {
    var acc' :=
      if HasDeltas(res) then acc.(needsToRefetch := true)
      else acc.(tokens := SetToken(acc.tokens, z, res.serverChangeToken),
                adapters := if z in acc.adapters then acc.adapters[z := SaveToken(acc.adapters[z], res.serverChangeToken)]
                            else acc.adapters);
    acc'.(pending := acc'.pending + if res.moreComing then [z] else [])
  }

  function ReconcileResults(results: seq<(ZoneId, ZoneResult)>, acc: Reconciled): Reconciled
  {
    if results == [] then acc
    else ReconcileResults(results[1..], ReconcileStep(acc, results[0].0, results[0].1))
  }

  /** A refetch is needed iff it already was or some result carries deltas. */
  lemma {:induction false} ReconcileNeeds(results: seq<(ZoneId, ZoneResult)>, acc: Reconciled)
    ensures ReconcileResults(results, acc).needsToRefetch <==>
            acc.needsToRefetch || exists i :: 0 <= i < |results| && HasDeltas(results[i].1)
  {
    if results != [] {
      var next := ReconcileStep(acc, results[0].0, results[0].1);
      ReconcileNeeds(results[1..], next);
      assert next.needsToRefetch <==> acc.needsToRefetch || HasDeltas(results[0].1);
      assert ReconcileResults(results, acc) == ReconcileResults(results[1..], next);
      if exists i :: 0 <= i < |results| - 1 && HasDeltas(results[1..][i].1) {
        var i :| 0 <= i < |results| - 1 && HasDeltas(results[1..][i].1);
        assert results[i + 1] == results[1..][i];
      }
      if exists i :: 0 <= i < |results| && HasDeltas(results[i].1) {
        var i :| 0 <= i < |results| && HasDeltas(results[i].1);
        if i > 0 {
          assert results[1..][i - 1] == results[i];
        }
      }
    }
  }

  /** Every zone reporting more coming is queued, in order, and the
      registered zones stay the same. */
  lemma {:induction false} ReconcilePending(results: seq<(ZoneId, ZoneResult)>, acc: Reconciled)
    ensures var r := ReconcileResults(results, acc);
            r.pending == acc.pending + MoreComing(results) && r.adapters.Keys == acc.adapters.Keys
  {
    if results != [] {
      var (z, res) := results[0];
      var next := ReconcileStep(acc, z, res);
      ReconcilePending(results[1..], next);
      var head := if res.moreComing then [z] else [];
      assert next.pending == acc.pending + head && next.adapters.Keys == acc.adapters.Keys;
      assert MoreComing(results) == head + MoreComing(results[1..]);
      assert ReconcileResults(results, acc) == ReconcileResults(results[1..], next);
    }
  }

  lemma ReconcileNeedsAndPending(results: seq<(ZoneId, ZoneResult)>, acc: Reconciled)
    ensures var r := ReconcileResults(results, acc);
            && (r.needsToRefetch <==> acc.needsToRefetch || exists i :: 0 <= i < |results| && HasDeltas(results[i].1))
            && r.pending == acc.pending + MoreComing(results)
            && r.adapters.Keys == acc.adapters.Keys
  {
    ReconcileNeeds(results, acc);
    ReconcilePending(results, acc);
  }

  /** A zone with no clean result keeps its active token and its adapter. */
  lemma {:induction false} ReconcileUntouched(results: seq<(ZoneId, ZoneResult)>, acc: Reconciled, y: ZoneId)
    requires forall i :: 0 <= i < |results| && !HasDeltas(results[i].1) ==> results[i].0 != y
    ensures var r := ReconcileResults(results, acc);
            && (y in r.tokens <==> y in acc.tokens) && (y in r.tokens ==> r.tokens[y] == acc.tokens[y])
            && (y in r.adapters <==> y in acc.adapters) && (y in r.adapters ==> r.adapters[y] == acc.adapters[y])
  {
    if results != [] {
      forall i | 0 <= i < |results| - 1 && !HasDeltas(results[1..][i].1) ensures results[1..][i].0 != y {
        assert results[1..][i] == results[i + 1];
      }
      ReconcileUntouched(results[1..], ReconcileStep(acc, results[0].0, results[0].1), y);
    }
  }

  /** A clean zone gets the token it reported made active (absent when nil)
      and saved to its adapter. */
  lemma {:induction false} ReconcileCleanZoneSaved(results: seq<(ZoneId, ZoneResult)>, acc: Reconciled, i: nat)
    requires DistinctZones(results)
    requires i < |results| && !HasDeltas(results[i].1)
    ensures var r := ReconcileResults(results, acc);
            var z := results[i].0;
            && (z in r.tokens <==> results[i].1.serverChangeToken.Some?)
            && (z in r.tokens ==> r.tokens[z] == results[i].1.serverChangeToken.value)
            && (z in r.adapters <==> z in acc.adapters)
            && (z in r.adapters ==> r.adapters[z] == SaveToken(acc.adapters[z], results[i].1.serverChangeToken))
  {
    var next := ReconcileStep(acc, results[0].0, results[0].1);
    DistinctTail(results);
    if i == 0 {
      ReconcileUntouched(results[1..], next, results[0].0);
    } else {
      assert results[1..][i - 1] == results[i];
      ReconcileCleanZoneSaved(results[1..], next, i - 1);
    }
  }

  /** Reconciliation keeps every adapter under its own zone. */
  lemma {:induction false} ReconcileResultsKeyed(results: seq<(ZoneId, ZoneResult)>, acc: Reconciled)
    requires KeyedByZone(acc.adapters)
    ensures KeyedByZone(ReconcileResults(results, acc).adapters)
  {
    if results != [] {
      ReconcileResultsKeyed(results[1..], ReconcileStep(acc, results[0].0, results[0].1));
    }
  }
}
