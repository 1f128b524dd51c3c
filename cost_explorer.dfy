/** The cost-attribution pipeline of src/lib/cost_explorer.ts: two grouped
    billing queries, the join that recovers a region for every billed
    resource and totals each service, and the 15-minute cost cache. */
module CostExplorer {
  import opened Wrappers
  import opened KeyedMaps
  import opened Sequences
  import opened HandleError
  import FileCache

  // ---------------------------------------------------------------------------
  // Data model

  /** One group of a grouped query: its two dimension keys, in group-by order,
      and its BlendedCost amount (absent when the metric is missing). */
  datatype Group = Group(key1: string, key2: string, amount: Option<real>)

  /** A query response: `ResultsByTime`, one list of groups per time period. */
  datatype CostResponse = CostResponse(resultsByTime: seq<seq<Group>>)

  /** One billed resource of a service: `{ id, region, cost }`. */
  datatype ResourceCostRecord = ResourceCostRecord(id: string, region: string, cost: real)

  /** One entry of the response: `{ service, totalCost, resources }`. */
  datatype ServiceCostSummary = ServiceCostSummary(service: string, totalCost: real, resources: seq<ResourceCostRecord>)

  /** The per-service accumulator `{ totalCost, resources }` of the join loop. */
  datatype Accumulator = Accumulator(totalCost: real, resources: seq<ResourceCostRecord>)

  /** The two grouping dimension pairs the pipeline asks for. */
  datatype GroupBy = ByServiceAndResource | ByRegionAndResource

  /** A GetCostAndUsageWithResources request: grouping, REGION filter values
      and SERVICE filter values (window, granularity and metric are fixed). */
  datatype CostQuery = CostQuery(groupBy: GroupBy, regions: seq<string>, services: seq<string>)

  /** The region given to a resource that no region group names. */
  const UnknownRegion: string := "Unknown"

  /** The error thrown when the SERVICE dimension listing carries no values. */
  const NoServicesError: AwsError := AwsError("Error", "No services found for the specified time period.")

  // ---------------------------------------------------------------------------
  // Specification of the join

  /** `parseFloat(Amount ?? "0")`. */
  function Cost(g: Group): real {
    g.amount.GetOr(0.0)
  }

  /** The groups of every time period, in response order. */
  function AllGroups(resp: CostResponse): seq<Group> {
    Concat(resp.resultsByTime)
  }

  /** A (REGION, RESOURCE_ID) group read as the entry `resourceId -> region`. */
  function RegionEntries(regionGroups: seq<Group>): seq<(string, string)> {
    seq(|regionGroups|, i requires 0 <= i < |regionGroups| => (regionGroups[i].key2, regionGroups[i].key1))
  }

  /** The `resourceId -> region` lookup: last group wins, empty ids skipped. */
  function RegionIndex(regionGroups: seq<Group>): map<string, string> {
    LastWins(RegionEntries(regionGroups))
  }

  /** `resourceIdToRegion.get(resourceId) || "Unknown"`. */
  function ResolveRegion(index: map<string, string>, id: string): string {
    if id in index && index[id] != "" then index[id] else UnknownRegion
  }

  function RecordOf(g: Group, index: map<string, string>): ResourceCostRecord {
    ResourceCostRecord(g.key2, ResolveRegion(index, g.key2), Cost(g))
  }

  /** The (SERVICE, RESOURCE_ID) groups of one service, in input order. */
  function GroupsOf(groups: seq<Group>, service: string): seq<Group> {
    if groups == [] then []
    else
      var p := GroupsOf(groups[..|groups| - 1], service);
      var g := groups[|groups| - 1];
      if g.key1 == service then p + [g] else p
  }

  function Records(groups: seq<Group>, index: map<string, string>): seq<ResourceCostRecord> {
    seq(|groups|, i requires 0 <= i < |groups| => RecordOf(groups[i], index))
  }

  /** The records whose cost is not negative (charges, not credits). */
  function NonNegative(rs: seq<ResourceCostRecord>): seq<ResourceCostRecord> {
    if rs == [] then []
    else
      var p := NonNegative(rs[..|rs| - 1]);
      if rs[|rs| - 1].cost >= 0.0 then p + [rs[|rs| - 1]] else p
  }

  /** The records whose cost is negative (credits and refunds). */
  function Credits(rs: seq<ResourceCostRecord>): seq<ResourceCostRecord> {
    if rs == [] then []
    else
      var p := Credits(rs[..|rs| - 1]);
      if rs[|rs| - 1].cost < 0.0 then p + [rs[|rs| - 1]] else p
  }

  function SumCosts(rs: seq<ResourceCostRecord>): real {
    if rs == [] then 0.0 else SumCosts(rs[..|rs| - 1]) + rs[|rs| - 1].cost
  }

  /** A service's displayed total: the sum of its non-negative costs. */
  function TotalOf(rs: seq<ResourceCostRecord>): real {
    SumCosts(NonNegative(rs))
  }

  /** The distinct services, in order of first appearance. */
  function Services(groups: seq<Group>): seq<string> {
    if groups == [] then []
    else
      var ss := Services(groups[..|groups| - 1]);
      var s := groups[|groups| - 1].key1;
      if s in ss then ss else ss + [s]
  }

  function Summarize(groups: seq<Group>, service: string, index: map<string, string>): ServiceCostSummary {
    var rs := Records(GroupsOf(groups, service), index);
    ServiceCostSummary(service, TotalOf(rs), rs)
  }

  function Summaries(groups: seq<Group>, index: map<string, string>): seq<ServiceCostSummary> {
    var ss := Services(groups);
    seq(|ss|, i requires 0 <= i < |ss| => Summarize(groups, ss[i], index))
  }

  /** The cost attribution join of the two grouped query results. */
  function Attribute(serviceGroups: seq<Group>, regionGroups: seq<Group>): seq<ServiceCostSummary> {
    Summaries(serviceGroups, RegionIndex(regionGroups))
  }

  // ---------------------------------------------------------------------------
  // Unfolding lemmas (one more group at the end)

  lemma RegionIndexSnoc(groups: seq<Group>, g: Group)
    ensures RegionIndex(groups + [g]) ==
      if g.key2 != "" then RegionIndex(groups)[g.key2 := g.key1] else RegionIndex(groups)
  {
    assert RegionEntries(groups + [g]) == RegionEntries(groups) + [(g.key2, g.key1)];
    LastWinsSnoc(RegionEntries(groups), (g.key2, g.key1));
  }

  lemma ServicesSnoc(groups: seq<Group>, g: Group)
    ensures Services(groups + [g]) ==
      if g.key1 in Services(groups) then Services(groups) else Services(groups) + [g.key1]
  {
    assert (groups + [g])[..|groups|] == groups;
  }

  lemma GroupsOfSnoc(groups: seq<Group>, g: Group, s: string)
    ensures GroupsOf(groups + [g], s) == if g.key1 == s then GroupsOf(groups, s) + [g] else GroupsOf(groups, s)
  {
    assert (groups + [g])[..|groups|] == groups;
  }

  lemma RecordsSnoc(groups: seq<Group>, g: Group, index: map<string, string>)
    ensures Records(groups + [g], index) == Records(groups, index) + [RecordOf(g, index)]
  {
  }

  lemma TotalOfSnoc(rs: seq<ResourceCostRecord>, r: ResourceCostRecord)
    ensures TotalOf(rs + [r]) == TotalOf(rs) + (if r.cost >= 0.0 then r.cost else 0.0)
  {
    assert (rs + [r])[..|rs|] == rs;
    var nn := NonNegative(rs);
    if r.cost >= 0.0 {
      assert (nn + [r])[..|nn|] == nn;
    }
  }

  /** A service that has not appeared yet has no groups. */
  lemma {:induction false} GroupsOfAbsent(groups: seq<Group>, s: string)
    requires s !in Services(groups)
    ensures GroupsOf(groups, s) == []
  {
    if groups != [] {
      var p := groups[..|groups| - 1];
      assert groups == p + [groups[|groups| - 1]];
      ServicesSnoc(p, groups[|groups| - 1]);
      GroupsOfAbsent(p, s);
    }
  }

  // ---------------------------------------------------------------------------
  // The join, as the source computes it (lines 158-197, repeated at 287-324)

  /** Lines 158-167: fill `resourceIdToRegion` from the (REGION, RESOURCE_ID) groups. */
  method BuildRegionIndex(resp: CostResponse) returns (index: map<string, string>)
    ensures index == RegionIndex(AllGroups(resp))
  {
    index := map[];
    var periods := resp.resultsByTime;
    for t := 0 to |periods|
      invariant index == RegionIndex(Concat(periods[..t]))
    {
      var groups := periods[t];
      ghost var done := Concat(periods[..t]);
      assert done + groups[..0] == done;
      for j := 0 to |groups|
        invariant index == RegionIndex(done + groups[..j])
      {
        var g := groups[j];
        PrefixStep(done, groups, j);
        RegionIndexSnoc(done + groups[..j], g);
        var region, resourceId := g.key1, g.key2;
        if resourceId != "" {
          index := index[resourceId := region];
        }
      }
      ConcatPrefixStep(periods, t);
      assert groups[..|groups|] == groups;
    }
    assert periods[..|periods|] == periods;
  }

  /** The accumulator invariant: `order` is the object's key order and every
      service holds the records and the total of the groups seen so far. */
  ghost predicate Tracks(serviceMap: map<string, Accumulator>, order: seq<string>,
                         done: seq<Group>, index: map<string, string>)
  {
    && order == Services(done)
    && (forall s :: s in serviceMap <==> s in order)
    && (forall s :: s in serviceMap ==>
          serviceMap[s] == Accumulator(TotalOf(Records(GroupsOf(done, s), index)), Records(GroupsOf(done, s), index)))
  }

  /** One group processed: its service is created if new, gets one record, and
      its total grows by the cost unless the cost is negative. */
  lemma TracksStep(m0: map<string, Accumulator>, o0: seq<string>, done: seq<Group>, g: Group,
                   index: map<string, string>, m1: map<string, Accumulator>, o1: seq<string>)
    requires Tracks(m0, o0, done, index)
    requires o1 == if g.key1 in m0 then o0 else o0 + [g.key1]
    requires forall s :: s in m1 <==> s in m0 || s == g.key1
    requires forall s :: s in m0 && s != g.key1 ==> m1[s] == m0[s]
    requires var a := if g.key1 in m0 then m0[g.key1] else Accumulator(0.0, []);
      m1[g.key1] == Accumulator(a.totalCost + (if Cost(g) >= 0.0 then Cost(g) else 0.0),
                                a.resources + [RecordOf(g, index)])
    ensures Tracks(m1, o1, done + [g], index)
  {
    assert o1 == Services(done + [g]) by { ServicesSnoc(done, g); }
    assert forall s :: s in m1 <==> s in o1;
    forall s | s in m1
      ensures m1[s] == Accumulator(TotalOf(Records(GroupsOf(done + [g], s), index)), Records(GroupsOf(done + [g], s), index))
    {
      if s == g.key1 {
        assert GroupsOf(done + [g], s) == GroupsOf(done, s) + [g] by { GroupsOfSnoc(done, g, s); }
        StepOfOwnService(m0, o0, done, g, index);
      } else {
        assert GroupsOf(done + [g], s) == GroupsOf(done, s) by { GroupsOfSnoc(done, g, s); }
        assert m1[s] == m0[s];
      }
    }
  }

  /** The accumulator of the group's own service after the step. */
  lemma StepOfOwnService(m0: map<string, Accumulator>, o0: seq<string>, done: seq<Group>, g: Group,
                         index: map<string, string>)
    requires Tracks(m0, o0, done, index)
    ensures var a := if g.key1 in m0 then m0[g.key1] else Accumulator(0.0, []);
      var rs := Records(GroupsOf(done, g.key1), index);
      a == Accumulator(TotalOf(rs), rs)
    ensures var rs := Records(GroupsOf(done, g.key1), index);
      Records(GroupsOf(done, g.key1) + [g], index) == rs + [RecordOf(g, index)]
      && TotalOf(rs + [RecordOf(g, index)]) == TotalOf(rs) + (if Cost(g) >= 0.0 then Cost(g) else 0.0)
  {
    RecordsSnoc(GroupsOf(done, g.key1), g, index);
    TotalOfSnoc(Records(GroupsOf(done, g.key1), index), RecordOf(g, index));
    if g.key1 !in m0 {
      GroupsOfAbsent(done, g.key1);
    }
  }

  /** Lines 193-197: `Object.entries(serviceMap).map(...)`, in key order.
      Over an accumulator that tracks the groups `done`, the formatted list is
      exactly the per-service summaries of those groups. */
  function Format(order: seq<string>, serviceMap: map<string, Accumulator>,
                  ghost done: seq<Group>, ghost index: map<string, string>): (r: seq<ServiceCostSummary>)
    requires Tracks(serviceMap, order, done, index)
    ensures r == Summaries(done, index)
  {
    var r := seq(|order|, i requires 0 <= i < |order| =>
      ServiceCostSummary(order[i], serviceMap[order[i]].totalCost, serviceMap[order[i]].resources));
    assert r == Summaries(done, index) by {
      forall i | 0 <= i < |r|
        ensures r[i] == Summaries(done, index)[i]
      {
        assert order[i] in serviceMap;
      }
    }
    r
  }

  /** Lines 174-188, the body of the inner loop: create the service's bucket
      if it is new, push the group's record, and add the cost to the total
      unless it is negative (the `continue`). */
  method AddGroup(serviceMap: map<string, Accumulator>, order: seq<string>, g: Group,
                  index: map<string, string>, ghost done: seq<Group>)
    returns (serviceMap': map<string, Accumulator>, order': seq<string>)
    requires Tracks(serviceMap, order, done, index)
    ensures Tracks(serviceMap', order', done + [g], index)
  {
    serviceMap', order' := serviceMap, order;
    var service, resourceId := g.key1, g.key2;
    var region := ResolveRegion(index, resourceId);
    var cost := Cost(g);
    if service !in serviceMap' {
      serviceMap' := serviceMap'[service := Accumulator(0.0, [])];
      order' := order' + [service];
    }
    serviceMap' := serviceMap'[service := serviceMap'[service].(
      resources := serviceMap'[service].resources + [ResourceCostRecord(resourceId, region, cost)])];
    if cost < 0.0 {
      TracksStep(serviceMap, order, done, g, index, serviceMap', order');
      return;
    }
    serviceMap' := serviceMap'[service := serviceMap'[service].(totalCost := serviceMap'[service].totalCost + cost)];
    TracksStep(serviceMap, order, done, g, index, serviceMap', order');
  }

  /** Lines 169-197: walk the (SERVICE, RESOURCE_ID) groups, push one record per
      group into its service's bucket, add non-negative costs to the total. */
  method AggregateByService(resp: CostResponse, index: map<string, string>) returns (response: seq<ServiceCostSummary>)
    ensures response == Summaries(AllGroups(resp), index)
  {
    var serviceMap: map<string, Accumulator> := map[];
    var order: seq<string> := [];
    var periods := resp.resultsByTime;
    for t := 0 to |periods|
      invariant Tracks(serviceMap, order, Concat(periods[..t]), index)
    {
      var groups := periods[t];
      ghost var done := Concat(periods[..t]);
      assert done + groups[..0] == done;
      for j := 0 to |groups|
        invariant Tracks(serviceMap, order, done + groups[..j], index)
      {
        PrefixStep(done, groups, j);
        serviceMap, order := AddGroup(serviceMap, order, groups[j], index, done + groups[..j]);
      }
      ConcatPrefixStep(periods, t);
      assert groups[..|groups|] == groups;
    }
    assert periods[..|periods|] == periods;
    response := Format(order, serviceMap, AllGroups(resp), index);
  }

  /** The join: region index first, then the per-service aggregation. */
  method Join(serviceResp: CostResponse, regionResp: CostResponse) returns (response: seq<ServiceCostSummary>)
    ensures response == Attribute(AllGroups(serviceResp), AllGroups(regionResp))
  {
    var index := BuildRegionIndex(regionResp);
    response := AggregateByService(serviceResp, index);
  }

  // ---------------------------------------------------------------------------
  // The two grouped queries followed by the join (shared by both call sites)

  /** Both grouped queries over the same REGION and SERVICE filters, then the
      join; a failing query is rethrown. */
  function QueryAndAttribute(regions: seq<string>, services: seq<string>,
                             billing: CostQuery -> Result<CostResponse, AwsError>): Result<seq<ServiceCostSummary>, AwsError>
  {
    var byService := billing(CostQuery(ByServiceAndResource, regions, services));
    if byService.Failure? then Failure(byService.error)
    else
      var byRegion := billing(CostQuery(ByRegionAndResource, regions, services));
      if byRegion.Failure? then Failure(byRegion.error)
      else Success(Attribute(AllGroups(byService.value), AllGroups(byRegion.value)))
  }

  /** Lines 106-197 and 235-324: send the (SERVICE, RESOURCE_ID) query, then the
      (REGION, RESOURCE_ID) query, then join their groups. */
  method QueryAndJoin(regions: seq<string>, services: seq<string>,
                      billing: CostQuery -> Result<CostResponse, AwsError>)
    returns (r: Result<seq<ServiceCostSummary>, AwsError>)
    ensures r == QueryAndAttribute(regions, services, billing)
  {
    var serviceResourceResp := billing(CostQuery(ByServiceAndResource, regions, services));
    if serviceResourceResp.Failure? {
      return Failure(serviceResourceResp.error);
    }
    var regionResourceResp := billing(CostQuery(ByRegionAndResource, regions, services));
    if regionResourceResp.Failure? {
      return Failure(regionResourceResp.error);
    }
    var response := Join(serviceResourceResp.value, regionResourceResp.value);
    return Success(response);
  }

  /** `DimensionValues.map(v => v.Value || "").filter(name => name !== "")`. */
  function ServiceNames(values: seq<Option<string>>): seq<string> {
    NonEmptyStrings(values)
  }

  // ---------------------------------------------------------------------------
  // Cost cache keys

  /** Fifteen minutes, in milliseconds. */
  const CacheWindow: int := 15 * 60 * 1000

  /** `Math.floor(t / window) * window`: the start of the window holding `t`. */
  function Bucket(t: int): (b: int)
    ensures b <= t < b + CacheWindow
    ensures b % CacheWindow == 0
  {
    (t / CacheWindow) * CacheWindow
  }

  /** Two timestamps share a cache bucket exactly when the second lies in the
      15-minute window that starts at the first one's bucket. */
  lemma SameBucketIffSameWindow(t1: int, t2: int)
    ensures Bucket(t1) == Bucket(t2) <==> Bucket(t1) <= t2 < Bucket(t1) + CacheWindow
  {
    var b1, b2 := Bucket(t1), Bucket(t2);
    if b1 <= t2 < b1 + CacheWindow {
      var q1, q2 := b1 / CacheWindow, b2 / CacheWindow;
      assert b1 == q1 * CacheWindow && b2 == q2 * CacheWindow;
    }
  }

  /** The cache directory: the access key id, or "unknown" when it is empty. */
  function CacheOwner(accessKeyId: string): string {
    if accessKeyId == "" then "unknown" else accessKeyId
  }

  /** The identity of the cache file `<owner>/<service>_<bucket>.json`. */
  datatype CostCacheKey = CostCacheKey(owner: string, serviceName: string, bucket: int)

  function CostCacheKeyAt(accessKeyId: string, serviceName: string, now: int): CostCacheKey {
    CostCacheKey(CacheOwner(accessKeyId), serviceName, Bucket(now))
  }

  /** Two requests use the same cache file exactly when they come from the same
      owner, for the same service, in the same 15-minute window. */
  lemma CacheKeyShared(a1: string, s1: string, t1: int, a2: string, s2: string, t2: int)
    ensures CostCacheKeyAt(a1, s1, t1) == CostCacheKeyAt(a2, s2, t2) <==>
      CacheOwner(a1) == CacheOwner(a2) && s1 == s2 && Bucket(t1) <= t2 < Bucket(t1) + CacheWindow
  {
    SameBucketIffSameWindow(t1, t2);
  }

  type CostCacheStore = FileCache.Store<CostCacheKey, seq<ServiceCostSummary>>

  // ---------------------------------------------------------------------------
  // The service object

  class CostExplorerService {
    const accessKeyId: string

    constructor (accessKeyId: string)
      ensures this.accessKeyId == accessKeyId
    {
      this.accessKeyId := accessKeyId;
    }

    /** listAllCost (lines 84-204).  `regions` is the outcome of FetchRegions,
        `dimensions` that of the SERVICE dimension listing (None when it carries
        no DimensionValues), `billing` answers the grouped queries. */
    method ListAllCost(regions: Result<seq<string>, AwsError>,
                       dimensions: Result<Option<seq<Option<string>>>, AwsError>,
                       billing: CostQuery -> Result<CostResponse, AwsError>)
      returns (r: Result<seq<ServiceCostSummary>, AwsError>)
      ensures regions.Failure? ==> r == Failure(regions.error)
      ensures regions.Success? && dimensions.Failure? ==> r == Failure(dimensions.error)
      ensures regions.Success? && dimensions == Success(None) ==> r == Failure(NoServicesError)
      ensures regions.Success? && dimensions.Success? && dimensions.value.Some? ==>
        r == QueryAndAttribute(regions.value, ServiceNames(dimensions.value.value), billing)
    {
      if regions.Failure? {
        return Failure(regions.error);
      }
      var allRegions := regions.value;
      if dimensions.Failure? {
        return Failure(dimensions.error);
      }
      if dimensions.value.None? {
        return Failure(NoServicesError);
      }
      var serviceNames := ServiceNames(dimensions.value.value);
      r := QueryAndJoin(allRegions, serviceNames, billing);
    }

    /** getServiceCost (lines 206-334): the cache file of the current window is
        returned when it parses; otherwise the pipeline runs for this one
        service and, on success, its result is written to that file.
        `queried` tells whether any billing query was sent; `writeError` is the
        outcome of writing the file. */
    method GetServiceCost(serviceName: string, now: int, cache: CostCacheStore,
                          regions: Result<seq<string>, AwsError>,
                          billing: CostQuery -> Result<CostResponse, AwsError>,
                          writeError: Option<AwsError>)
      returns (r: Result<seq<ServiceCostSummary>, AwsError>, queried: bool)
      modifies cache
      ensures var key := CostCacheKeyAt(accessKeyId, serviceName, now);
        if old(cache.HasReadable(key)) then
          r == Success(old(cache.files[key].value)) && !queried && cache.files == old(cache.files)
        else
          queried == regions.Success?
          && var computed := if regions.Failure? then Failure(regions.error)
                             else QueryAndAttribute(regions.value, [serviceName], billing);
             if computed.Failure? then r == computed && cache.files == old(cache.files)
             else if writeError.Some? then r == Failure(writeError.value) && cache.files == old(cache.files)
             else r == computed && cache.files == old(cache.files)[key := FileCache.Readable(computed.value)]
    {
      var cacheFile := CostCacheKeyAt(accessKeyId, serviceName, now);
      if cacheFile in cache.files && cache.files[cacheFile].Readable? {
        return Success(cache.files[cacheFile].value), false;
      }
      if regions.Failure? {
        return Failure(regions.error), false;
      }
      queried := true;
      var response := QueryAndJoin(regions.value, [serviceName], billing);
      if response.Failure? {
        return response, queried;
      }
      if writeError.Some? {
        return Failure(writeError.value), queried;
      }
      cache.files := cache.files[cacheFile := FileCache.Readable(response.value)];
      r := response;
    }
  }

  /** Two refreshes in the same window: the second is served from the cache
      the first one wrote, without any billing query. */
  method RefreshTwice(service: CostExplorerService, serviceName: string, t1: int, t2: int,
                      cache: CostCacheStore, regions: Result<seq<string>, AwsError>,
                      billing: CostQuery -> Result<CostResponse, AwsError>)
    returns (r1: Result<seq<ServiceCostSummary>, AwsError>, r2: Result<seq<ServiceCostSummary>, AwsError>,
             queried2: bool)
    requires Bucket(t1) <= t2 < Bucket(t1) + CacheWindow
    modifies cache
    ensures r1.Success? ==> r2 == r1 && !queried2
  {
    var q1;
    r1, q1 := service.GetServiceCost(serviceName, t1, cache, regions, billing, None);
    SameBucketIffSameWindow(t1, t2);
    r2, queried2 := service.GetServiceCost(serviceName, t2, cache, regions, billing, None);
  }
}

module CostAttributionProperties {
  import opened Wrappers
  import opened KeyedMaps
  import opened CostExplorer

  // ---------------------------------------------------------------------------
  // Regions: last write wins, "Unknown" by default

  /** A record's region is the region of the LAST (REGION, RESOURCE_ID) group
      naming its resource, or "Unknown" when that region is empty. */
  lemma RecordRegionIsLastRegionGroup(sg: seq<Group>, rg: seq<Group>, i: nat, j: nat, k: nat)
    requires i < |Attribute(sg, rg)| && j < |Attribute(sg, rg)[i].resources|
    requires k < |rg| && rg[k].key2 == Attribute(sg, rg)[i].resources[j].id && rg[k].key2 != ""
    requires forall l :: k < l < |rg| ==> rg[l].key2 != rg[k].key2
    ensures Attribute(sg, rg)[i].resources[j].region == if rg[k].key1 != "" then rg[k].key1 else "Unknown"
  {
    var es := RegionEntries(rg);
    assert es[k] == (rg[k].key2, rg[k].key1);
    LastWinsValue(es, k);
  }

  /** A resource that no region group names is attributed to "Unknown". */
  lemma RecordRegionUnknown(sg: seq<Group>, rg: seq<Group>, i: nat, j: nat)
    requires i < |Attribute(sg, rg)| && j < |Attribute(sg, rg)[i].resources|
    requires forall l :: 0 <= l < |rg| ==> rg[l].key2 != Attribute(sg, rg)[i].resources[j].id
    ensures Attribute(sg, rg)[i].resources[j].region == "Unknown"
  {
    var es := RegionEntries(rg);
    LastWinsAbsent(es, Attribute(sg, rg)[i].resources[j].id);
  }

  // ---------------------------------------------------------------------------
  // Services: one entry per distinct service, in first-appearance order

  lemma {:induction false} ServicesDistinct(groups: seq<Group>)
    ensures forall i, j :: 0 <= i < j < |Services(groups)| ==> Services(groups)[i] != Services(groups)[j]
  {
    if groups != [] {
      var p := groups[..|groups| - 1];
      ServicesDistinct(p);
    }
  }

  lemma {:induction false} ServicesMembership(groups: seq<Group>, s: string)
    ensures s in Services(groups) <==> exists n :: 0 <= n < |groups| && groups[n].key1 == s
  {
    if groups != [] {
      var p := groups[..|groups| - 1];
      ServicesMembership(p, s);
      if s in Services(p) {
        var n :| 0 <= n < |p| && p[n].key1 == s;
        assert groups[n].key1 == s;
      }
      if exists n :: 0 <= n < |groups| && groups[n].key1 == s {
        var n :| 0 <= n < |groups| && groups[n].key1 == s;
        if n < |p| { assert p[n].key1 == s; }
      }
    }
  }

  /** The output has exactly one summary per distinct service of the input. */
  lemma AttributeServices(sg: seq<Group>, rg: seq<Group>, s: string)
    ensures (exists i :: 0 <= i < |Attribute(sg, rg)| && Attribute(sg, rg)[i].service == s)
        <==> (exists n :: 0 <= n < |sg| && sg[n].key1 == s)
    ensures forall i, j :: 0 <= i < j < |Attribute(sg, rg)| ==> Attribute(sg, rg)[i].service != Attribute(sg, rg)[j].service
  {
    ServicesMembership(sg, s);
    ServicesDistinct(sg);
    if s in Services(sg) {
      var i :| 0 <= i < |Services(sg)| && Services(sg)[i] == s;
      assert Attribute(sg, rg)[i].service == s;
    }
  }

  /** The position at which a service first appears. */
  function FirstIndex(groups: seq<Group>, s: string): (n: nat)
    requires exists n :: 0 <= n < |groups| && groups[n].key1 == s
    ensures n < |groups| && groups[n].key1 == s
    ensures forall m :: 0 <= m < n ==> groups[m].key1 != s
  {
    if groups[0].key1 == s then 0
    else
      assert exists n :: 0 <= n < |groups[1..]| && groups[1..][n].key1 == s by {
        var n :| 0 <= n < |groups| && groups[n].key1 == s;
        assert groups[1..][n - 1].key1 == s;
      }
      1 + FirstIndex(groups[1..], s)
  }

  /** Services are listed in the order of their first appearance. */
  lemma {:induction false} ServicesInFirstAppearanceOrder(groups: seq<Group>, i: nat, j: nat)
    requires i < j < |Services(groups)|
    ensures Services(groups)[i] in Services(groups) && Services(groups)[j] in Services(groups)
    ensures (ServicesMembership(groups, Services(groups)[i]); ServicesMembership(groups, Services(groups)[j]);
             FirstIndex(groups, Services(groups)[i]) < FirstIndex(groups, Services(groups)[j]))
  {
    var ss := Services(groups);
    ServicesMembership(groups, ss[i]);
    ServicesMembership(groups, ss[j]);
    var p := groups[..|groups| - 1];
    var g := groups[|groups| - 1];
    assert groups == p + [g];
    ServicesSnoc(p, g);
    ServicesDistinct(groups);
    if j < |Services(p)| {
      ServicesInFirstAppearanceOrder(p, i, j);
      ServicesMembership(p, ss[i]);
      ServicesMembership(p, ss[j]);
      FirstIndexOfPrefix(p, g, ss[i]);
      FirstIndexOfPrefix(p, g, ss[j]);
    } else {
      // ss[j] is the new service: it appears only in the last group
      ServicesMembership(p, ss[j]);
      ServicesMembership(p, ss[i]);
      FirstIndexOfPrefix(p, g, ss[i]);
      assert FirstIndex(groups, ss[j]) == |p|;
    }
  }

  lemma FirstIndexOfPrefix(p: seq<Group>, g: Group, s: string)
    requires exists n :: 0 <= n < |p| && p[n].key1 == s
    ensures exists n :: 0 <= n < |p + [g]| && (p + [g])[n].key1 == s
    ensures FirstIndex(p + [g], s) == FirstIndex(p, s)
  {
    var n :| 0 <= n < |p| && p[n].key1 == s;
    assert (p + [g])[n].key1 == s;
    var a, b := FirstIndex(p + [g], s), FirstIndex(p, s);
    assert (p + [g])[b].key1 == s;
  }

  // ---------------------------------------------------------------------------
  // Records: one per group, nothing dropped

  function ServiceKeys(groups: seq<Group>): seq<string> {
    seq(|groups|, n requires 0 <= n < |groups| => groups[n].key1)
  }

  /** A service has exactly as many records as it has groups in the input. */
  lemma {:induction false} RecordCountPerService(groups: seq<Group>, s: string)
    ensures |GroupsOf(groups, s)| == multiset(ServiceKeys(groups))[s]
  {
    if groups != [] {
      var p := groups[..|groups| - 1];
      var g := groups[|groups| - 1];
      assert groups == p + [g];
      assert ServiceKeys(groups) == ServiceKeys(p) + [g.key1];
      GroupsOfSnoc(p, g, s);
      RecordCountPerService(p, s);
    }
  }

  /** Every record of a service comes from a group of that service, in input order. */
  lemma {:induction false} GroupsOfMembership(groups: seq<Group>, s: string, k: nat)
    requires k < |GroupsOf(groups, s)|
    ensures GroupsOf(groups, s)[k].key1 == s && GroupsOf(groups, s)[k] in groups
  {
    var p := groups[..|groups| - 1];
    var g := groups[|groups| - 1];
    assert groups == p + [g];
    GroupsOfSnoc(p, g, s);
    if k < |GroupsOf(p, s)| {
      GroupsOfMembership(p, s, k);
    }
  }

  /** Records of the summaries of a list of services. */
  function RecordCount(groups: seq<Group>, services: seq<string>): nat {
    if services == [] then 0
    else RecordCount(groups, services[..|services| - 1]) + |GroupsOf(groups, services[|services| - 1])|
  }

  lemma {:induction false} RecordCountSnoc(p: seq<Group>, g: Group, services: seq<string>)
    requires forall i, j :: 0 <= i < j < |services| ==> services[i] != services[j]
    ensures RecordCount(p + [g], services) == RecordCount(p, services) + (if g.key1 in services then 1 else 0)
  {
    if services != [] {
      var q := services[..|services| - 1];
      RecordCountSnoc(p, g, q);
      GroupsOfSnoc(p, g, services[|services| - 1]);
      assert services == q + [services[|services| - 1]];
    }
  }

  lemma {:induction false} RecordCountAll(groups: seq<Group>)
    ensures RecordCount(groups, Services(groups)) == |groups|
  {
    if groups != [] {
      var p := groups[..|groups| - 1];
      var g := groups[|groups| - 1];
      assert groups == p + [g];
      ServicesSnoc(p, g);
      ServicesDistinct(p);
      RecordCountAll(p);
      RecordCountSnoc(p, g, Services(p));
      if g.key1 !in Services(p) {
        GroupsOfAbsent(p, g.key1);
        GroupsOfSnoc(p, g, g.key1);
        assert Services(groups)[..|Services(groups)| - 1] == Services(p);
      }
    }
  }

  function ResourceCount(summaries: seq<ServiceCostSummary>): nat {
    if summaries == [] then 0
    else ResourceCount(summaries[..|summaries| - 1]) + |summaries[|summaries| - 1].resources|
  }

  lemma {:induction false} ResourceCountPrefix(sg: seq<Group>, index: map<string, string>, k: nat)
    requires k <= |Services(sg)|
    ensures ResourceCount(Summaries(sg, index)[..k]) == RecordCount(sg, Services(sg)[..k])
  {
    if k > 0 {
      ResourceCountPrefix(sg, index, k - 1);
      assert Summaries(sg, index)[..k][..k - 1] == Summaries(sg, index)[..k - 1];
      assert Services(sg)[..k][..k - 1] == Services(sg)[..k - 1];
    }
  }

  /** Nothing is dropped: the output holds exactly one record per input group. */
  lemma NothingDropped(sg: seq<Group>, rg: seq<Group>)
    ensures ResourceCount(Attribute(sg, rg)) == |sg|
  {
    var index := RegionIndex(rg);
    ResourceCountPrefix(sg, index, |Services(sg)|);
    assert Summaries(sg, index)[..|Services(sg)|] == Summaries(sg, index);
    assert Services(sg)[..|Services(sg)|] == Services(sg);
    RecordCountAll(sg);
  }

  /** Each summary's records are its groups, in order, with the group's cost. */
  lemma SummaryRecords(sg: seq<Group>, rg: seq<Group>, i: nat)
    requires i < |Attribute(sg, rg)|
    ensures var a := Attribute(sg, rg)[i];
      |a.resources| == multiset(ServiceKeys(sg))[a.service]
      && forall k :: 0 <= k < |a.resources| ==>
           a.resources[k].id == GroupsOf(sg, a.service)[k].key2
           && a.resources[k].cost == Cost(GroupsOf(sg, a.service)[k])
  {
    RecordCountPerService(sg, Attribute(sg, rg)[i].service);
  }

  // ---------------------------------------------------------------------------
  // Totals: credits are kept in the records but excluded from the total

  lemma {:induction false} TotalIsNonNegative(rs: seq<ResourceCostRecord>)
    ensures TotalOf(rs) >= 0.0
  {
    if rs != [] {
      var p := rs[..|rs| - 1];
      assert rs == p + [rs[|rs| - 1]];
      TotalOfSnoc(p, rs[|rs| - 1]);
      TotalIsNonNegative(p);
    }
  }

  /** The total is the gross sum of the costs minus the credits. */
  lemma {:induction false} TotalIsGrossMinusCredits(rs: seq<ResourceCostRecord>)
    ensures TotalOf(rs) == SumCosts(rs) - SumCosts(Credits(rs))
  {
    if rs != [] {
      var p := rs[..|rs| - 1];
      var r := rs[|rs| - 1];
      assert rs == p + [r];
      TotalOfSnoc(p, r);
      TotalIsGrossMinusCredits(p);
      var c := Credits(p);
      if r.cost < 0.0 {
        assert (c + [r])[..|c|] == c;
      }
    }
  }

  /** A credit appended to a service changes its records but not its total. */
  lemma CreditLeavesTotalUnchanged(rs: seq<ResourceCostRecord>, r: ResourceCostRecord)
    requires r.cost < 0.0
    ensures TotalOf(rs + [r]) == TotalOf(rs)
  {
    TotalOfSnoc(rs, r);
  }

  /** Every non-negative cost of a service is covered by its total. */
  lemma {:induction false} ChargeBoundedByTotal(rs: seq<ResourceCostRecord>, k: nat)
    requires k < |rs| && rs[k].cost >= 0.0
    ensures rs[k].cost <= TotalOf(rs)
  {
    var p := rs[..|rs| - 1];
    assert rs == p + [rs[|rs| - 1]];
    TotalOfSnoc(p, rs[|rs| - 1]);
    TotalIsNonNegative(p);
    if k < |p| {
      ChargeBoundedByTotal(p, k);
    }
  }

  /** A summary's total is the sum of its non-negative record costs. */
  lemma SummaryTotal(sg: seq<Group>, rg: seq<Group>, i: nat)
    requires i < |Attribute(sg, rg)|
    ensures var a := Attribute(sg, rg)[i];
      a.totalCost == SumCosts(a.resources) - SumCosts(Credits(a.resources)) && a.totalCost >= 0.0
  {
    TotalIsGrossMinusCredits(Attribute(sg, rg)[i].resources);
    TotalIsNonNegative(Attribute(sg, rg)[i].resources);
  }

  // ---------------------------------------------------------------------------
  // The worked example: a credit on bucket-b

  lemma TwoBucketIndex()
    ensures RegionIndex([Group("us-east-1", "bucket-a", Some(0.0)), Group("eu-west-1", "bucket-b", Some(0.0))])
      == map["bucket-a" := "us-east-1", "bucket-b" := "eu-west-1"]
  {
    var rg := [Group("us-east-1", "bucket-a", Some(0.0)), Group("eu-west-1", "bucket-b", Some(0.0))];
    RegionIndexSnoc([rg[0]], rg[1]);
    assert [rg[0]] + [rg[1]] == rg;
    RegionIndexSnoc([], rg[0]);
    assert [] + [rg[0]] == [rg[0]];
  }

  lemma TwoBucketGroups()
    ensures Services([Group("S3", "bucket-a", Some(5.0)), Group("S3", "bucket-b", Some(-2.0))]) == ["S3"]
    ensures GroupsOf([Group("S3", "bucket-a", Some(5.0)), Group("S3", "bucket-b", Some(-2.0))], "S3")
      == [Group("S3", "bucket-a", Some(5.0)), Group("S3", "bucket-b", Some(-2.0))]
  {
    var sg := [Group("S3", "bucket-a", Some(5.0)), Group("S3", "bucket-b", Some(-2.0))];
    assert sg[..1] == [sg[0]];
  }

  lemma TwoBucketTotal()
    ensures TotalOf([ResourceCostRecord("bucket-a", "us-east-1", 5.0), ResourceCostRecord("bucket-b", "eu-west-1", -2.0)]) == 5.0
  {
    var rs := [ResourceCostRecord("bucket-a", "us-east-1", 5.0), ResourceCostRecord("bucket-b", "eu-west-1", -2.0)];
    TotalOfSnoc([rs[0]], rs[1]);
    TotalOfSnoc([], rs[0]);
    assert [rs[0]] + [rs[1]] == rs;
    assert [] + [rs[0]] == [rs[0]];
  }

  /** Two buckets of one service: the credit is listed but not totalled,
      and each bucket carries the region its usage was reported in. */
  lemma TwoBucketExample()
    ensures Attribute(
      [Group("S3", "bucket-a", Some(5.0)), Group("S3", "bucket-b", Some(-2.0))],
      [Group("us-east-1", "bucket-a", Some(0.0)), Group("eu-west-1", "bucket-b", Some(0.0))])
      == [ServiceCostSummary("S3", 5.0,
            [ResourceCostRecord("bucket-a", "us-east-1", 5.0), ResourceCostRecord("bucket-b", "eu-west-1", -2.0)])]
  {
    var sg := [Group("S3", "bucket-a", Some(5.0)), Group("S3", "bucket-b", Some(-2.0))];
    var rg := [Group("us-east-1", "bucket-a", Some(0.0)), Group("eu-west-1", "bucket-b", Some(0.0))];
    var index := map["bucket-a" := "us-east-1", "bucket-b" := "eu-west-1"];
    var rs := [ResourceCostRecord("bucket-a", "us-east-1", 5.0), ResourceCostRecord("bucket-b", "eu-west-1", -2.0)];
    assert RegionIndex(rg) == index by { TwoBucketIndex(); }
    TwoBucketGroups();
    assert Records(sg, index) == rs;
    assert Summarize(sg, "S3", index) == ServiceCostSummary("S3", 5.0, rs) by { TwoBucketTotal(); }
  }
}
