/** The region directory of src/lib/account.ts: the regions enabled by
    default for one credential, cached per access key id with no expiry. */
module Account {
  import opened Wrappers
  import opened HandleError
  import FileCache

  /** The opt status of a region that is on without opting in. */
  const EnabledByDefault: string := "ENABLED_BY_DEFAULT"

  /** The status checks run in listing order; the first one that throws ends
      the fetch with its error, otherwise the names enabled by default remain. */
  function EnabledAmong(names: seq<string>, optStatus: string -> Result<string, AwsError>): Result<seq<string>, AwsError> {
    if names == [] then Success([])
    else
      var prefix := EnabledAmong(names[..|names| - 1], optStatus);
      var n := names[|names| - 1];
      if prefix.Failure? then prefix
      else
        var status := optStatus(n);
        if status.Failure? then Failure(status.error)
        else if status.value == EnabledByDefault then Success(prefix.value + [n])
        else prefix
  }

  lemma EnabledAmongSnoc(names: seq<string>, n: string, optStatus: string -> Result<string, AwsError>)
    ensures EnabledAmong(names + [n], optStatus) ==
      var prefix := EnabledAmong(names, optStatus);
      if prefix.Failure? then prefix
      else if optStatus(n).Failure? then Failure(optStatus(n).error)
      else if optStatus(n).value == EnabledByDefault then Success(prefix.value + [n])
      else prefix
  {
    assert (names + [n])[..|names|] == names;
  }

  /** Once a status check has thrown, later regions do not change the outcome. */
  lemma {:induction false} FailurePersists(names: seq<string>, i: nat, optStatus: string -> Result<string, AwsError>)
    requires i <= |names| && EnabledAmong(names[..i], optStatus).Failure?
    ensures EnabledAmong(names, optStatus) == EnabledAmong(names[..i], optStatus)
    decreases |names| - i
  {
    if i < |names| {
      assert names[..i + 1] == names[..i] + [names[i]];
      EnabledAmongSnoc(names[..i], names[i], optStatus);
      FailurePersists(names, i + 1, optStatus);
    } else {
      assert names[..i] == names;
    }
  }

  /** The fetch succeeds exactly when every status check succeeds. */
  lemma {:induction false} EnabledSucceedsIffAllChecksSucceed(names: seq<string>, optStatus: string -> Result<string, AwsError>)
    ensures EnabledAmong(names, optStatus).Success? <==> forall k :: 0 <= k < |names| ==> optStatus(names[k]).Success?
  {
    if names != [] {
      var p := names[..|names| - 1];
      assert names == p + [names[|names| - 1]];
      EnabledSucceedsIffAllChecksSucceed(p, optStatus);
      if !EnabledAmong(p, optStatus).Success? {
        var k :| 0 <= k < |p| && !optStatus(p[k]).Success?;
        assert names[k] == p[k];
      }
    }
  }

  /** On failure, the error is that of the first check that threw. */
  lemma {:induction false} EnabledFailsWithFirstError(names: seq<string>, optStatus: string -> Result<string, AwsError>)
    requires EnabledAmong(names, optStatus).Failure?
    ensures exists k :: (0 <= k < |names|
      && optStatus(names[k]) == Failure(EnabledAmong(names, optStatus).error)
      && forall j :: 0 <= j < k ==> optStatus(names[j]).Success?)
  {
    var p := names[..|names| - 1];
    var n := names[|names| - 1];
    assert names == p + [n];
    if EnabledAmong(p, optStatus).Failure? {
      EnabledFailsWithFirstError(p, optStatus);
      var k :| 0 <= k < |p| && optStatus(p[k]) == Failure(EnabledAmong(p, optStatus).error)
        && forall j :: 0 <= j < k ==> optStatus(p[j]).Success?;
      assert names[k] == p[k];
      assert forall j :: 0 <= j < k ==> names[j] == p[j];
    } else {
      EnabledSucceedsIffAllChecksSucceed(p, optStatus);
      assert forall j :: 0 <= j < |p| ==> names[j] == p[j];
      assert optStatus(names[|p|]) == Failure(EnabledAmong(names, optStatus).error);
    }
  }

  /** On success, a region is returned exactly when it was listed and its
      status is ENABLED_BY_DEFAULT. */
  lemma {:induction false} EnabledMembership(names: seq<string>, optStatus: string -> Result<string, AwsError>, x: string)
    requires EnabledAmong(names, optStatus).Success?
    ensures x in EnabledAmong(names, optStatus).value <==> x in names && optStatus(x) == Success(EnabledByDefault)
  {
    if names != [] {
      var p := names[..|names| - 1];
      assert names == p + [names[|names| - 1]];
      EnabledMembership(p, optStatus, x);
    }
  }

  /** The result keeps the listing order: it is a subsequence of the names. */
  lemma {:induction false} EnabledIsSubsequence(names: seq<string>, optStatus: string -> Result<string, AwsError>)
    requires EnabledAmong(names, optStatus).Success?
    ensures |EnabledAmong(names, optStatus).value| <= |names|
    ensures forall i, j :: 0 <= i < j < |EnabledAmong(names, optStatus).value| ==>
      exists a, b :: 0 <= a < b < |names|
        && names[a] == EnabledAmong(names, optStatus).value[i] && names[b] == EnabledAmong(names, optStatus).value[j]
  {
    if names != [] {
      var p := names[..|names| - 1];
      var n := names[|names| - 1];
      assert names == p + [n];
      EnabledIsSubsequence(p, optStatus);
      var es := EnabledAmong(p, optStatus).value;
      var rs := EnabledAmong(names, optStatus).value;
      EnabledAmongSnoc(p, n, optStatus);
      assert rs == es || rs == es + [n];
      forall i, j | 0 <= i < j < |rs|
        ensures exists a, b :: 0 <= a < b < |names| && names[a] == rs[i] && names[b] == rs[j]
      {
        if j < |es| {
          assert rs[i] == es[i] && rs[j] == es[j];
          var a, b :| 0 <= a < b < |p| && p[a] == es[i] && p[b] == es[j];
          assert names[a] == rs[i] && names[b] == rs[j];
        } else {
          assert rs == es + [n] && rs[i] == es[i] && rs[j] == n;
          EnabledMembership(p, optStatus, rs[i]);
          var a :| 0 <= a < |p| && p[a] == rs[i];
          assert names[a] == rs[i] && names[|p|] == rs[j];
        }
      }
      assert |rs| <= |names|;
      assert forall i, j :: 0 <= i < j < |rs| ==> exists a, b :: 0 <= a < b < |names| && names[a] == rs[i] && names[b] == rs[j];
      assert rs == EnabledAmong(names, optStatus).value;
    } else {
      assert EnabledAmong(names, optStatus).value == [];
    }
  }

  /** The region cache file name, `<accessKeyId>.json` under region_cache. */
  function RegionCacheFile(accessKeyId: string): string {
    accessKeyId + ".json"
  }

  /** Distinct access key ids never share a region cache file. */
  lemma RegionCacheFileInjective(a: string, b: string)
    ensures RegionCacheFile(a) == RegionCacheFile(b) <==> a == b
  {
    if RegionCacheFile(a) == RegionCacheFile(b) {
      assert a == RegionCacheFile(a)[..|a|];
      assert b == RegionCacheFile(b)[..|b|];
    }
  }

  type RegionCacheStore = FileCache.Store<string, seq<string>>

  class AccountService {
    const accessKeyId: string
    var regions: seq<string>

    constructor (accessKeyId: string)
      ensures this.accessKeyId == accessKeyId && regions == []
    {
      this.accessKeyId := accessKeyId;
      regions := [];
    }

    /** getCacheFilePath: it depends on the access key id alone. */
    function CacheFilePath(): string {
      RegionCacheFile(accessKeyId)
    }

    /** FetchRegions (lines 26-63).  `listing` is the outcome of ListRegions
        (each region's RegionName may be absent), `optStatus` answers
        GetRegionOptStatus, `writeError` is the outcome of writing the cache
        file.  `checked` is the sequence of regions whose status was asked. */
    method FetchRegions(cache: RegionCacheStore, listing: Result<seq<Option<string>>, AwsError>,
                        optStatus: string -> Result<string, AwsError>, writeError: Option<AwsError>)
      returns (r: Result<seq<string>, AwsError>, checked: seq<string>)
      modifies this, cache
      ensures forall n :: n in checked ==> n != ""
      ensures var key := CacheFilePath();
        if old(cache.HasReadable(key)) then
          r == Success(old(cache.files[key].value)) && regions == r.value
          && checked == [] && cache.files == old(cache.files)
        else if listing.Failure? then
          r == Failure(listing.error) && checked == [] && regions == old(regions) && cache.files == old(cache.files)
        else
          var names := NonEmptyStrings(listing.value);
          var enabled := EnabledAmong(names, optStatus);
          checked <= names
          && (enabled.Failure? ==>
                r == enabled && regions == old(regions) && cache.files == old(cache.files)
                && |checked| > 0 && optStatus(checked[|checked| - 1]) == Failure(enabled.error)
                && (forall j :: 0 <= j < |checked| - 1 ==> optStatus(checked[j]).Success?))
          && (enabled.Success? ==>
                checked == names && regions == enabled.value
                && (writeError.None? ==>
                      r == enabled && cache.files == old(cache.files)[key := FileCache.Readable(enabled.value)])
                && (writeError.Some? ==> r == Failure(writeError.value) && cache.files == old(cache.files)))
    {
      var cacheFile := CacheFilePath();
      checked := [];
      if cacheFile in cache.files && cache.files[cacheFile].Readable? {
        regions := cache.files[cacheFile].value;
        return Success(regions), checked;
      }
      if listing.Failure? {
        return Failure(listing.error), checked;
      }
      var allRegions := NonEmptyStrings(listing.value);
      var enabledRegions: seq<string> := [];
      for i := 0 to |allRegions|
        invariant EnabledAmong(allRegions[..i], optStatus) == Success(enabledRegions)
        invariant checked == allRegions[..i]
        invariant forall n :: n in checked ==> n != ""
        invariant forall j :: 0 <= j < |checked| ==> optStatus(checked[j]).Success?
        invariant regions == old(regions) && cache.files == old(cache.files)
      {
        var regionName := allRegions[i];
        assert regionName in allRegions;
        var statusResp := optStatus(regionName);
        checked := checked + [regionName];
        assert allRegions[..i + 1] == allRegions[..i] + [regionName];
        EnabledAmongSnoc(allRegions[..i], regionName, optStatus);
        if statusResp.Failure? {
          FailurePersists(allRegions, i + 1, optStatus);
          return Failure(statusResp.error), checked;
        }
        if statusResp.value == EnabledByDefault {
          enabledRegions := enabledRegions + [regionName];
        }
      }
      assert allRegions[..|allRegions|] == allRegions;
      regions := enabledRegions;
      if writeError.Some? {
        return Failure(writeError.value), checked;
      }
      cache.files := cache.files[cacheFile := FileCache.Readable(regions)];
      r := Success(regions);
    }
  }
}
