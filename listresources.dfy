/** The inventory handlers of src/controller/listresources.ts: the compute
    summary over the EC2 instance listing, the combined S3 + EBS storage
    report, and the synthetic seven-day series it carries. */
module ListResources {
  import opened Wrappers
  import opened HandleError
  import opened CostAttachment
  import opened Tallies
  import opened Ec2
  import opened S3

  // ---------------------------------------------------------------------------
  // getCompute

  datatype ComputeSummary = ComputeSummary(
    totalInstances: nat, runningInstances: nat, stoppedInstances: nat, terminatedInstances: nat,
    publicInstances: nat, privateInstances: nat, reservedInstances: nat)

  /** Reading `i.State.Name` of an instance without a `State` throws this. */
  const MissingStateError := AwsError("TypeError", "Cannot read properties of undefined (reading 'Name')")

  predicate InState(x: Costed<Instance>, name: string) {
    x.item.state.Some? && x.item.state.value.name == Some(name)
  }

  /** `i.PublicIpAddress` is truthy. */
  predicate IsPublic(x: Costed<Instance>) {
    x.item.publicIpAddress.Some? && x.item.publicIpAddress.value != ""
  }

  /** `allInstances.filter(i => i.State.Name === name).length`. */
  function CountInState(xs: seq<Costed<Instance>>, name: string): nat {
    if xs == [] then 0
    else CountInState(xs[..|xs| - 1], name) + (if InState(xs[|xs| - 1], name) then 1 else 0)
  }

  function CountPublic(xs: seq<Costed<Instance>>): nat {
    if xs == [] then 0
    else CountPublic(xs[..|xs| - 1]) + (if IsPublic(xs[|xs| - 1]) then 1 else 0)
  }

  function CountPrivate(xs: seq<Costed<Instance>>): nat {
    if xs == [] then 0
    else CountPrivate(xs[..|xs| - 1]) + (if !IsPublic(xs[|xs| - 1]) then 1 else 0)
  }

  /** The counts of `getCompute`. `EC2Service` has no `listReservedInstances`,
      so the reserved count is always 0. */
  function Compute(instances: seq<Costed<Instance>>): Result<ComputeSummary, AwsError> {
    if exists i :: 0 <= i < |instances| && instances[i].item.state.None? then Failure(MissingStateError)
    else Success(ComputeSummary(|instances|,
      CountInState(instances, "running"), CountInState(instances, "stopped"), CountInState(instances, "terminated"),
      CountPublic(instances), CountPrivate(instances), 0))
  }

  /** The handler: `listing` is the outcome of `listInstances`; any error,
      including the one `Compute` raises, goes through `handleAWSError`. */
  function GetCompute(listing: Result<seq<Costed<Instance>>, AwsError>): Reply<ComputeSummary> {
    Respond(if listing.Failure? then Failure(listing.error) else Compute(listing.value))
  }

  /** Every instance is public or private, never both. */
  lemma {:induction false} PublicPlusPrivate(xs: seq<Costed<Instance>>)
    ensures CountPublic(xs) + CountPrivate(xs) == |xs|
  {
    if xs != [] {
      PublicPlusPrivate(xs[..|xs| - 1]);
    }
  }

  /** The three state counts filter on distinct names, so together they
      count each instance at most once. */
  lemma {:induction false} StateCountsBounded(xs: seq<Costed<Instance>>)
    ensures CountInState(xs, "running") + CountInState(xs, "stopped") + CountInState(xs, "terminated") <= |xs|
  {
    if xs != [] {
      StateCountsBounded(xs[..|xs| - 1]);
    }
  }

  lemma ComputeSummaryConsistent(instances: seq<Costed<Instance>>)
    requires Compute(instances).Success?
    ensures var c := Compute(instances).value;
      c.publicInstances + c.privateInstances == c.totalInstances
      && c.runningInstances + c.stoppedInstances + c.terminatedInstances <= c.totalInstances
      && c.reservedInstances == 0
  {
    PublicPlusPrivate(instances);
    StateCountsBounded(instances);
  }

  /** An instance without `State` makes the handler answer 500 with the
      thrown message. */
  lemma MissingStateAnswers500(instances: seq<Costed<Instance>>, k: nat)
    requires k < |instances| && instances[k].item.state.None?
    ensures GetCompute(Success(instances)) == Err(ErrorResponse(500, "AWS service error", Some(MissingStateError.message)))
  {
  }

  // ---------------------------------------------------------------------------
  // getListOfAllStorage

  /** `bucket.BucketRegion || region`. */
  function BucketRegionOf(bucket: Bucket, requestRegion: string): string {
    var r := bucket.bucketRegion.GetOr("");
    if r != "" then r else requestRegion
  }

  /** `objects.reduce((acc, obj) => acc + (obj.Size || 0), 0)`. */
  function ObjectsSize(objects: seq<Costed<S3Object>>): int {
    if objects == [] then 0
    else ObjectsSize(objects[..|objects| - 1]) + objects[|objects| - 1].item.size.GetOr(0)
  }

  /** The object listings of the buckets, asked one bucket after another in
      the bucket's region; the first failing call ends the report. */
  function ListingsOf(buckets: seq<Costed<Bucket>>, requestRegion: string,
                      listObjects: (Option<string>, string) -> Result<ObjectListing, AwsError>)
    : (r: Result<seq<ObjectListing>, AwsError>)
    ensures r.Success? ==> |r.value| == |buckets|
  {
    if buckets == [] then Success([])
    else
      var done := ListingsOf(buckets[..|buckets| - 1], requestRegion, listObjects);
      var b := buckets[|buckets| - 1].item;
      if done.Failure? then done
      else
        var listing := listObjects(b.name, BucketRegionOf(b, requestRegion));
        if listing.Failure? then Failure(listing.error) else Success(done.value + [listing.value])
  }

  lemma ListingsOfSnoc(buckets: seq<Costed<Bucket>>, b: Costed<Bucket>, requestRegion: string,
                       listObjects: (Option<string>, string) -> Result<ObjectListing, AwsError>)
    ensures ListingsOf(buckets + [b], requestRegion, listObjects) ==
      var done := ListingsOf(buckets, requestRegion, listObjects);
      var listing := listObjects(b.item.name, BucketRegionOf(b.item, requestRegion));
      if done.Failure? then done
      else if listing.Failure? then Failure(listing.error) else Success(done.value + [listing.value])
  {
    assert (buckets + [b])[..|buckets|] == buckets;
  }

  lemma {:induction false} ListingsFailurePersists(buckets: seq<Costed<Bucket>>, i: nat, requestRegion: string,
                                                   listObjects: (Option<string>, string) -> Result<ObjectListing, AwsError>)
    requires i <= |buckets| && ListingsOf(buckets[..i], requestRegion, listObjects).Failure?
    ensures ListingsOf(buckets, requestRegion, listObjects) == ListingsOf(buckets[..i], requestRegion, listObjects)
  {
    if i < |buckets| {
      var p := buckets[..|buckets| - 1];
      assert p[..i] == buckets[..i];
      ListingsFailurePersists(p, i, requestRegion, listObjects);
    } else {
      assert buckets[..i] == buckets;
    }
  }

  /** Each bucket's objects are listed in its own region, or in the request
      region when its `BucketRegion` is empty. */
  lemma {:induction false} ListingsOfValue(buckets: seq<Costed<Bucket>>, requestRegion: string,
                                           listObjects: (Option<string>, string) -> Result<ObjectListing, AwsError>)
    requires ListingsOf(buckets, requestRegion, listObjects).Success?
    ensures forall k :: 0 <= k < |buckets| ==>
      listObjects(buckets[k].item.name, BucketRegionOf(buckets[k].item, requestRegion))
        == Success(ListingsOf(buckets, requestRegion, listObjects).value[k])
  {
    if buckets != [] {
      var p := buckets[..|buckets| - 1];
      ListingsOfValue(p, requestRegion, listObjects);
      assert forall k :: 0 <= k < |p| ==> p[k] == buckets[k];
    }
  }

  /** The running totals of the bucket loop. */
  datatype BucketTotals = BucketTotals(totalSize: int, totalObjects: int, emptyBuckets: nat,
                                       regionSizes: Tally, regionObjects: Tally)

  /** Lines 226-234: one bucket's objects added to the running totals. */
  function AddBucket(t: BucketTotals, region: string, objects: seq<Costed<S3Object>>): BucketTotals {
    var size := ObjectsSize(objects);
    BucketTotals(t.totalSize + size, t.totalObjects + |objects|,
                 t.emptyBuckets + (if |objects| == 0 then 1 else 0),
                 Add(t.regionSizes, region, size), Add(t.regionObjects, region, |objects|))
  }

  function TotalsOf(buckets: seq<Costed<Bucket>>, requestRegion: string, listings: seq<ObjectListing>): BucketTotals
    requires |listings| == |buckets|
  {
    if buckets == [] then BucketTotals(0, 0, 0, Empty, Empty)
    else
      AddBucket(TotalsOf(buckets[..|buckets| - 1], requestRegion, listings[..|listings| - 1]),
                BucketRegionOf(buckets[|buckets| - 1].item, requestRegion), listings[|listings| - 1].objects)
  }

  /** The totals agree with the region tables, and at most `n` of the `n`
      buckets seen are empty. */
  predicate SumsAgree(t: BucketTotals, n: nat) {
    Valid(t.regionSizes) && Valid(t.regionObjects)
    && t.totalSize == Total(t.regionSizes) && t.totalObjects == Total(t.regionObjects)
    && t.emptyBuckets <= n
  }

  lemma AddBucketKeepsSums(t: BucketTotals, region: string, objects: seq<Costed<S3Object>>, n: nat)
    requires SumsAgree(t, n)
    ensures SumsAgree(AddBucket(t, region, objects), n + 1)
  {
    var size := ObjectsSize(objects);
    var a := AddBucket(t, region, objects);
    assert Valid(a.regionSizes) by {
      AddKeepsValid(t.regionSizes, region, size);
    }
    assert Valid(a.regionObjects) by {
      AddKeepsValid(t.regionObjects, region, |objects|);
    }
    assert a.totalSize == Total(a.regionSizes) by {
      AddTotal(t.regionSizes, region, size);
    }
    assert a.totalObjects == Total(a.regionObjects) by {
      AddTotal(t.regionObjects, region, |objects|);
    }
  }

  /** The sum of the sizes, and of the object counts, of the buckets that
      fall under `region`. */
  function SizeIn(buckets: seq<Costed<Bucket>>, requestRegion: string, listings: seq<ObjectListing>, region: string): int
    requires |listings| == |buckets|
  {
    if buckets == [] then 0
    else
      SizeIn(buckets[..|buckets| - 1], requestRegion, listings[..|listings| - 1], region)
      + (if BucketRegionOf(buckets[|buckets| - 1].item, requestRegion) == region
         then ObjectsSize(listings[|listings| - 1].objects) else 0)
  }

  function ObjectsIn(buckets: seq<Costed<Bucket>>, requestRegion: string, listings: seq<ObjectListing>, region: string): int
    requires |listings| == |buckets|
  {
    if buckets == [] then 0
    else
      ObjectsIn(buckets[..|buckets| - 1], requestRegion, listings[..|listings| - 1], region)
      + (if BucketRegionOf(buckets[|buckets| - 1].item, requestRegion) == region
         then |listings[|listings| - 1].objects| else 0)
  }

  /** `totalSize` is the sum of the `regionSizes` values and `totalObjects`
      the sum of the `regionObjects` values; at most every bucket is empty. */
  /** The positions of the buckets whose listing holds no objects. */
  function EmptyPositions(listings: seq<ObjectListing>): set<nat> {
    set k: nat | k < |listings| && listings[k].objects == []
  }

  lemma EmptyPositionsSnoc(listings: seq<ObjectListing>, l: ObjectListing)
    ensures |EmptyPositions(listings + [l])| == |EmptyPositions(listings)| + (if l.objects == [] then 1 else 0)
  {
    var all := listings + [l];
    if l.objects == [] {
      assert EmptyPositions(all) == EmptyPositions(listings) + {|listings|};
    } else {
      assert EmptyPositions(all) == EmptyPositions(listings);
    }
  }

  /** `emptyBucketCount` is the number of buckets whose listing is empty. */
  lemma {:induction false} EmptyBucketsCounted(buckets: seq<Costed<Bucket>>, requestRegion: string, listings: seq<ObjectListing>)
    requires |listings| == |buckets|
    ensures TotalsOf(buckets, requestRegion, listings).emptyBuckets == |EmptyPositions(listings)|
  {
    if buckets != [] {
      var lp := listings[..|listings| - 1];
      EmptyBucketsCounted(buckets[..|buckets| - 1], requestRegion, lp);
      assert lp + [listings[|lp|]] == listings;
      EmptyPositionsSnoc(lp, listings[|lp|]);
    }
  }

  lemma {:induction false} TotalsAreSumsOverRegions(buckets: seq<Costed<Bucket>>, requestRegion: string, listings: seq<ObjectListing>)
    requires |listings| == |buckets|
    ensures SumsAgree(TotalsOf(buckets, requestRegion, listings), |buckets|)
  {
    if buckets != [] {
      var p := buckets[..|buckets| - 1];
      var lp := listings[..|listings| - 1];
      TotalsAreSumsOverRegions(p, requestRegion, lp);
      var region := BucketRegionOf(buckets[|buckets| - 1].item, requestRegion);
      var objects := listings[|listings| - 1].objects;
      assert TotalsOf(buckets, requestRegion, listings) == AddBucket(TotalsOf(p, requestRegion, lp), region, objects);
      AddBucketKeepsSums(TotalsOf(p, requestRegion, lp), region, objects, |p|);
    }
  }

  /** Each region's entry holds exactly the size and object count of the
      buckets that fall under it. */
  lemma {:induction false} RegionEntriesAreSumsOfBuckets(buckets: seq<Costed<Bucket>>, requestRegion: string,
                                                        listings: seq<ObjectListing>, region: string)
    requires |listings| == |buckets|
    ensures Get(TotalsOf(buckets, requestRegion, listings).regionSizes, region) == SizeIn(buckets, requestRegion, listings, region)
    ensures Get(TotalsOf(buckets, requestRegion, listings).regionObjects, region) == ObjectsIn(buckets, requestRegion, listings, region)
  {
    if buckets != [] {
      var p := buckets[..|buckets| - 1];
      var lp := listings[..|listings| - 1];
      RegionEntriesAreSumsOfBuckets(p, requestRegion, lp, region);
      var t := TotalsOf(p, requestRegion, lp);
      var objects := listings[|listings| - 1].objects;
      var r := BucketRegionOf(buckets[|buckets| - 1].item, requestRegion);
      AddValue(t.regionSizes, r, ObjectsSize(objects), region);
      AddValue(t.regionObjects, r, |objects|, region);
    }
  }

  /** Every bucket has an entry under its region; a bucket whose
      `BucketRegion` is empty is counted under the request region. */
  lemma {:induction false} BucketHasRegionEntry(buckets: seq<Costed<Bucket>>, requestRegion: string,
                                               listings: seq<ObjectListing>, k: nat)
    requires |listings| == |buckets| && k < |buckets|
    ensures BucketRegionOf(buckets[k].item, requestRegion) in TotalsOf(buckets, requestRegion, listings).regionObjects.order
    ensures buckets[k].item.bucketRegion.GetOr("") == "" ==>
      requestRegion in TotalsOf(buckets, requestRegion, listings).regionObjects.order
  {
    var p := buckets[..|buckets| - 1];
    var lp := listings[..|listings| - 1];
    TotalsAreSumsOverRegions(p, requestRegion, lp);
    var t := TotalsOf(p, requestRegion, lp);
    var objects := listings[|listings| - 1].objects;
    var r := BucketRegionOf(buckets[|buckets| - 1].item, requestRegion);
    var region := BucketRegionOf(buckets[k].item, requestRegion);
    assert TotalsOf(buckets, requestRegion, listings).regionObjects == Add(t.regionObjects, r, |objects|);
    AddOrder(t.regionObjects, r, |objects|, region);
    if k < |p| {
      assert p[k] == buckets[k];
      BucketHasRegionEntry(p, requestRegion, lp, k);
    }
  }

  /** `Math.floor(x * tenths / 10)` for the constants 0.6 and 0.7, in exact
      arithmetic: the largest integer not above `x * tenths / 10`. */
  function FloorOfTenths(x: int, tenths: int): (r: int)
    ensures 10 * r <= tenths * x < 10 * r + 10
  {
    (tenths * x) / 10
  }

  /** The mocked "used" EBS size, 70% of the provisioned size rounded down. */
  function UsedEstimate(totalSize: int): int {
    FloorOfTenths(totalSize, 7)
  }

  lemma UsedEstimateBounded(totalSize: int)
    requires totalSize >= 0
    ensures 0 <= UsedEstimate(totalSize) <= totalSize
  {
  }

  /** `volumes.reduce((sum, vol) => sum + (vol.Size || 0), 0)`. */
  function VolumesSize(volumes: seq<Volume>): int {
    if volumes == [] then 0
    else VolumesSize(volumes[..|volumes| - 1]) + volumes[|volumes| - 1].size.GetOr(0)
  }

  /** The `volumeTypeMap` the `forEach` leaves: one count per truthy type. */
  function VolumeTypeTally(volumes: seq<Volume>): Tally {
    if volumes == [] then Empty
    else
      var t := VolumeTypeTally(volumes[..|volumes| - 1]);
      var vt := volumes[|volumes| - 1].volumeType.GetOr("");
      if vt != "" then Add(t, vt, 1) else t
  }

  /** How many volumes have type `name`, and how many have any type. */
  function VolumesOfType(volumes: seq<Volume>, name: string): nat {
    if volumes == [] then 0
    else VolumesOfType(volumes[..|volumes| - 1], name) + (if volumes[|volumes| - 1].volumeType == Some(name) then 1 else 0)
  }

  function TypedVolumes(volumes: seq<Volume>): nat {
    if volumes == [] then 0
    else TypedVolumes(volumes[..|volumes| - 1]) + (if volumes[|volumes| - 1].volumeType.GetOr("") != "" then 1 else 0)
  }

  /** The histogram counts every typed volume once: its counts sum to the
      number of typed volumes, which is at most the number of volumes. */
  lemma {:induction false} VolumeTypeTotal(volumes: seq<Volume>)
    ensures Valid(VolumeTypeTally(volumes))
    ensures Total(VolumeTypeTally(volumes)) == TypedVolumes(volumes) <= |volumes|
  {
    if volumes != [] {
      var p := volumes[..|volumes| - 1];
      VolumeTypeTotal(p);
      var vt := volumes[|volumes| - 1].volumeType.GetOr("");
      if vt != "" {
        AddKeepsValid(VolumeTypeTally(p), vt, 1);
        AddTotal(VolumeTypeTally(p), vt, 1);
      }
    }
  }

  /** Each type's count is the number of volumes of that type. */
  lemma {:induction false} VolumeTypeCount(volumes: seq<Volume>, name: string)
    requires name != ""
    ensures Get(VolumeTypeTally(volumes), name) == VolumesOfType(volumes, name)
  {
    if volumes != [] {
      var p := volumes[..|volumes| - 1];
      VolumeTypeCount(p, name);
      var vt := volumes[|volumes| - 1].volumeType.GetOr("");
      if vt != "" {
        AddValue(VolumeTypeTally(p), vt, 1, name);
      }
    }
  }

  const VolumeColors: map<string, string> := map[
    "gp2" := "#3b82f6", "gp3" := "#10b981", "io1" := "#06b6d4", "io2" := "#f59e0b",
    "st1" := "#8b5cf6", "sc1" := "#ec4899", "standard" := "#9ca3af"]

  const DefaultVolumeColor := "#6b7280"

  /** `volumeColors[name] || "#6b7280"`. */
  function ColorOf(name: string): string {
    if name in VolumeColors then VolumeColors[name] else DefaultVolumeColor
  }

  /** Only the seven known types get their own colour; every other type gets
      the grey default. */
  lemma ColorOfDefault(name: string)
    ensures ColorOf(name) == DefaultVolumeColor <==> name !in VolumeColors
  {
  }

  datatype VolumeTypeEntry = VolumeTypeEntry(name: string, value: int, color: string)

  /** `Object.entries(volumeTypeMap).map(...)`. */
  function VolumeTypeEntries(t: Tally): seq<VolumeTypeEntry> {
    seq(|t.order|, i requires 0 <= i < |t.order| => VolumeTypeEntry(t.order[i], Get(t, t.order[i]), ColorOf(t.order[i])))
  }

  datatype SeriesKind = SizeSeries | ObjectsSeries

  /** One day of the series; `daysAgo` stands for the ISO date of that day. */
  datatype SeriesPoint = SeriesPoint(daysAgo: nat, kind: SeriesKind, total: int, type1: int, type2: int)

  const SeriesDays := 7

  function SeriesPointAt(kind: SeriesKind, total: int, i: nat): SeriesPoint
    requires i < SeriesDays
  {
    var type1 := FloorOfTenths(total, 6);
    SeriesPoint(SeriesDays - i - 1, kind, total, type1, total - type1)
  }

  function TimeSeries(kind: SeriesKind, total: int): seq<SeriesPoint> {
    seq(SeriesDays, i requires 0 <= i < SeriesDays => SeriesPointAt(kind, total, i))
  }

  /** `generateTimeSeriesData`: the loop pushing one point per day. */
  method GenerateTimeSeriesData(kind: SeriesKind, total: int) returns (data: seq<SeriesPoint>)
    ensures data == TimeSeries(kind, total)
  {
    data := [];
    for i := 0 to SeriesDays
      invariant data == TimeSeries(kind, total)[..i]
    {
      var type1 := FloorOfTenths(total, 6);
      var type2 := total - type1;
      data := data + [SeriesPoint(SeriesDays - i - 1, kind, total, type1, type2)];
    }
  }

  /** Seven points, oldest first and ending today, each splitting `total`
      into `type1 = floor(0.6 * total)` and the rest. */
  lemma TimeSeriesShape(kind: SeriesKind, total: int)
    ensures |TimeSeries(kind, total)| == 7
    ensures TimeSeries(kind, total)[6].daysAgo == 0
    ensures forall i :: 0 <= i < 6 ==> TimeSeries(kind, total)[i].daysAgo == TimeSeries(kind, total)[i + 1].daysAgo + 1
    ensures forall p :: p in TimeSeries(kind, total) ==>
      p.kind == kind && p.total == total && p.type1 + p.type2 == total
      && 10 * p.type1 <= 6 * total < 10 * p.type1 + 10
  {
  }

  /** The `volumes.forEach` filling `volumeTypeMap`. */
  method CountVolumeTypes(volumes: seq<Volume>) returns (volumeTypeMap: Tally)
    ensures volumeTypeMap == VolumeTypeTally(volumes)
  {
    volumeTypeMap := Empty;
    for i := 0 to |volumes|
      invariant volumeTypeMap == VolumeTypeTally(volumes[..i])
    {
      assert volumes[..i + 1][..i] == volumes[..i];
      var volumeType := volumes[i].volumeType.GetOr("");
      if volumeType != "" {
        volumeTypeMap := Add(volumeTypeMap, volumeType, 1);
      }
    }
    assert volumes[..|volumes|] == volumes;
  }

  datatype StorageSummary = StorageSummary(
    totalBuckets: nat, emptyBuckets: nat, totalSize: int, totalObjects: int,
    regionSizes: Tally, regionObjects: Tally,
    s3SizeData: seq<SeriesPoint>, s3ObjectsData: seq<SeriesPoint>,
    totalEBSVolumes: nat, totalEBSUsed: int, totalEBSSize: int, ebsVolumeTypes: seq<VolumeTypeEntry>)

  function StorageReport(buckets: seq<Costed<Bucket>>, requestRegion: string,
                         listings: seq<ObjectListing>, volumes: seq<Volume>): StorageSummary
    requires |listings| == |buckets|
  {
    var t := TotalsOf(buckets, requestRegion, listings);
    StorageSummary(|buckets|, t.emptyBuckets, t.totalSize, t.totalObjects, t.regionSizes, t.regionObjects,
      TimeSeries(SizeSeries, t.totalSize), TimeSeries(ObjectsSeries, t.totalObjects),
      |volumes|, UsedEstimate(VolumesSize(volumes)), VolumesSize(volumes),
      VolumeTypeEntries(VolumeTypeTally(volumes)))
  }

  /** The outcome of the handler: bucket listing, then each bucket's objects
      in order, then the volumes; the first failure wins. */
  function StorageOutcome(listing: Result<BucketListing, AwsError>, requestRegion: string,
                          listObjects: (Option<string>, string) -> Result<ObjectListing, AwsError>,
                          volumes: Result<DescribeVolumesOutput, AwsError>): Result<StorageSummary, AwsError>
  {
    if listing.Failure? then Failure(listing.error)
    else
      var listings := ListingsOf(listing.value.buckets, requestRegion, listObjects);
      if listings.Failure? then Failure(listings.error)
      else if volumes.Failure? then Failure(volumes.error)
      else Success(StorageReport(listing.value.buckets, requestRegion, listings.value, volumes.value.volumes.GetOr([])))
  }

  lemma TotalsOfSnoc(buckets: seq<Costed<Bucket>>, b: Costed<Bucket>, requestRegion: string,
                     listings: seq<ObjectListing>, l: ObjectListing)
    requires |listings| == |buckets|
    ensures TotalsOf(buckets + [b], requestRegion, listings + [l]) ==
      AddBucket(TotalsOf(buckets, requestRegion, listings), BucketRegionOf(b.item, requestRegion), l.objects)
  {
    assert (buckets + [b])[..|buckets|] == buckets;
    assert (listings + [l])[..|listings|] == listings;
  }

  /** One more bucket listed: its listing joins the others and its objects
      join the totals. */
  lemma SumBucketsStep(buckets: seq<Costed<Bucket>>, requestRegion: string,
                       listObjects: (Option<string>, string) -> Result<ObjectListing, AwsError>,
                       i: nat, listings: seq<ObjectListing>, l: ObjectListing)
    requires i < |buckets| && |listings| == i
    requires ListingsOf(buckets[..i], requestRegion, listObjects) == Success(listings)
    requires listObjects(buckets[i].item.name, BucketRegionOf(buckets[i].item, requestRegion)) == Success(l)
    ensures ListingsOf(buckets[..i + 1], requestRegion, listObjects) == Success(listings + [l])
    ensures TotalsOf(buckets[..i + 1], requestRegion, listings + [l])
      == AddBucket(TotalsOf(buckets[..i], requestRegion, listings), BucketRegionOf(buckets[i].item, requestRegion), l.objects)
  {
    assert buckets[..i + 1] == buckets[..i] + [buckets[i]];
    ListingsOfSnoc(buckets[..i], buckets[i], requestRegion, listObjects);
    TotalsOfSnoc(buckets[..i], buckets[i], requestRegion, listings, l);
  }

  /** A failing listing of bucket `i` is the outcome of the whole run. */
  lemma SumBucketsFailure(buckets: seq<Costed<Bucket>>, requestRegion: string,
                          listObjects: (Option<string>, string) -> Result<ObjectListing, AwsError>,
                          i: nat, listings: seq<ObjectListing>)
    requires i < |buckets|
    requires ListingsOf(buckets[..i], requestRegion, listObjects) == Success(listings)
    requires listObjects(buckets[i].item.name, BucketRegionOf(buckets[i].item, requestRegion)).Failure?
    ensures ListingsOf(buckets, requestRegion, listObjects)
      == Failure(listObjects(buckets[i].item.name, BucketRegionOf(buckets[i].item, requestRegion)).error)
  {
    assert buckets[..i + 1] == buckets[..i] + [buckets[i]];
    ListingsOfSnoc(buckets[..i], buckets[i], requestRegion, listObjects);
    ListingsFailurePersists(buckets, i + 1, requestRegion, listObjects);
  }

  /** Lines 220-235: list each bucket's objects in its region and add them to
      the running totals; a failing listing is rethrown. */
  method SumBuckets(buckets: seq<Costed<Bucket>>, requestRegion: string,
                    listObjects: (Option<string>, string) -> Result<ObjectListing, AwsError>)
    returns (r: Result<BucketTotals, AwsError>)
    ensures var listings := ListingsOf(buckets, requestRegion, listObjects);
      if listings.Failure? then r == Failure(listings.error)
      else r == Success(TotalsOf(buckets, requestRegion, listings.value))
  {
    var totalSize := 0;
    var totalObjects := 0;
    var emptyBucketCount := 0;
    var regionSizeMap := Empty;
    var regionObjectMap := Empty;
    ghost var listings: seq<ObjectListing> := [];
    for i := 0 to |buckets|
      invariant ListingsOf(buckets[..i], requestRegion, listObjects) == Success(listings)
      invariant |listings| == i
      invariant BucketTotals(totalSize, totalObjects, emptyBucketCount, regionSizeMap, regionObjectMap)
        == TotalsOf(buckets[..i], requestRegion, listings)
    {
      var bucketName := buckets[i].item.name;
      var bucketRegion := BucketRegionOf(buckets[i].item, requestRegion);
      var objectsOutcome := listObjects(bucketName, bucketRegion);
      if objectsOutcome.Failure? {
        SumBucketsFailure(buckets, requestRegion, listObjects, i, listings);
        return Failure(objectsOutcome.error);
      }
      var objects := objectsOutcome.value.objects;
      var size := ObjectsSize(objects);
      var objectCount := |objects|;
      ghost var before := BucketTotals(totalSize, totalObjects, emptyBucketCount, regionSizeMap, regionObjectMap);
      totalSize := totalSize + size;
      totalObjects := totalObjects + objectCount;
      if objectCount == 0 {
        emptyBucketCount := emptyBucketCount + 1;
      }
      regionSizeMap := Add(regionSizeMap, bucketRegion, size);
      regionObjectMap := Add(regionObjectMap, bucketRegion, objectCount);
      assert BucketTotals(totalSize, totalObjects, emptyBucketCount, regionSizeMap, regionObjectMap)
        == AddBucket(before, bucketRegion, objects);
      SumBucketsStep(buckets, requestRegion, listObjects, i, listings, objectsOutcome.value);
      assert BucketTotals(totalSize, totalObjects, emptyBucketCount, regionSizeMap, regionObjectMap)
        == TotalsOf(buckets[..i + 1], requestRegion, listings + [objectsOutcome.value]);
      listings := listings + [objectsOutcome.value];
    }
    assert buckets[..|buckets|] == buckets;
    return Success(BucketTotals(totalSize, totalObjects, emptyBucketCount, regionSizeMap, regionObjectMap));
  }

  /** `getListOfAllStorage`: `listing` is the outcome of `listBuckets`,
      `listObjects` the object listing of a bucket in a region, `volumes`
      the single-region DescribeVolumes call of the EBS pass-through. */
  method GetListOfAllStorage(listing: Result<BucketListing, AwsError>, requestRegion: string,
                             listObjects: (Option<string>, string) -> Result<ObjectListing, AwsError>,
                             volumes: Result<DescribeVolumesOutput, AwsError>)
    returns (r: Reply<StorageSummary>)
    ensures r == Respond(StorageOutcome(listing, requestRegion, listObjects, volumes))
  {
    if listing.Failure? {
      return Respond(Failure(listing.error));
    }
    var buckets := listing.value.buckets;
    var totals := SumBuckets(buckets, requestRegion, listObjects);
    if totals.Failure? {
      return Respond(Failure(totals.error));
    }
    var totalSize, totalObjects := totals.value.totalSize, totals.value.totalObjects;
    if volumes.Failure? {
      return Respond(Failure(volumes.error));
    }
    var vols := volumes.value.volumes.GetOr([]);
    var totalEBSSize := VolumesSize(vols);
    var totalEBSUsed := FloorOfTenths(totalEBSSize, 7);
    var volumeTypeMap := CountVolumeTypes(vols);
    var ebsVolumeTypes := VolumeTypeEntries(volumeTypeMap);
    var s3SizeData := GenerateTimeSeriesData(SizeSeries, totalSize);
    var s3ObjectsData := GenerateTimeSeriesData(ObjectsSeries, totalObjects);
    return Ok(StorageSummary(|buckets|, totals.value.emptyBuckets, totalSize, totalObjects,
                             totals.value.regionSizes, totals.value.regionObjects,
                             s3SizeData, s3ObjectsData, |vols|, totalEBSUsed, totalEBSSize, ebsVolumeTypes));
  }
}
