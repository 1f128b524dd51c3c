/** S3 inventory (src/lib/s3.ts): the account's buckets with their regions
    and costs, and one bucket's objects with their costs. Both read only the
    first service entry of the S3 cost lookup. */
module S3 {
  import opened Wrappers
  import opened KeyedMaps
  import opened HandleError
  import opened CostExplorer
  import opened CostAttachment

  /** The fields of a bucket the backend reads and sets. */
  datatype Bucket = Bucket(name: Option<string>, bucketRegion: Option<string>)

  datatype ListBucketsOutput = ListBucketsOutput(buckets: Option<seq<Bucket>>)

  datatype LocationOutput = LocationOutput(locationConstraint: Option<string>)

  /** The fields of an object the backend reads. */
  datatype S3Object = S3Object(key: Option<string>, size: Option<int>)

  datatype ListObjectsOutput = ListObjectsOutput(contents: Option<seq<S3Object>>)

  datatype BucketListing = BucketListing(totalCost: real, buckets: seq<Costed<Bucket>>)

  datatype ObjectListing = ObjectListing(totalCost: real, objects: seq<Costed<S3Object>>)

  /** The service name passed to the cost lookup. */
  const StorageService := "Amazon Simple Storage Service"

  /** `LocationConstraint || ""`. */
  function LocationRegion(out: LocationOutput): string {
    out.locationConstraint.GetOr("")
  }

  /** The buckets with `BucketRegion` set from their location, asked one
      bucket after another; the first failing location call ends the listing
      with its error. */
  function Located(buckets: seq<Bucket>, location: Option<string> -> Result<LocationOutput, AwsError>): Result<seq<Bucket>, AwsError> {
    if buckets == [] then Success([])
    else
      var done := Located(buckets[..|buckets| - 1], location);
      var last := buckets[|buckets| - 1];
      if done.Failure? then done
      else
        var loc := location(last.name);
        if loc.Failure? then Failure(loc.error)
        else Success(done.value + [last.(bucketRegion := Some(LocationRegion(loc.value)))])
  }

  function BucketNameOf(bucket: Bucket): Option<string> {
    bucket.name
  }

  function ObjectKeyOf(obj: S3Object): Option<string> {
    obj.key
  }

  lemma LocatedSnoc(buckets: seq<Bucket>, b: Bucket, location: Option<string> -> Result<LocationOutput, AwsError>)
    ensures Located(buckets + [b], location) ==
      var done := Located(buckets, location);
      if done.Failure? then done
      else if location(b.name).Failure? then Failure(location(b.name).error)
      else Success(done.value + [b.(bucketRegion := Some(LocationRegion(location(b.name).value)))])
  {
    assert (buckets + [b])[..|buckets|] == buckets;
  }

  /** Once a location call has failed, later buckets do not change the outcome. */
  lemma {:induction false} LocatedFailurePersists(buckets: seq<Bucket>, i: nat, location: Option<string> -> Result<LocationOutput, AwsError>)
    requires i <= |buckets| && Located(buckets[..i], location).Failure?
    ensures Located(buckets, location) == Located(buckets[..i], location)
  {
    if i < |buckets| {
      var p := buckets[..|buckets| - 1];
      assert p[..i] == buckets[..i];
      LocatedFailurePersists(p, i, location);
    } else {
      assert buckets[..i] == buckets;
    }
  }

  /** The listing succeeds exactly when every bucket's location call does. */
  lemma {:induction false} LocatedSucceedsIff(buckets: seq<Bucket>, location: Option<string> -> Result<LocationOutput, AwsError>)
    ensures Located(buckets, location).Success? <==> forall k :: 0 <= k < |buckets| ==> location(buckets[k].name).Success?
  {
    if buckets != [] {
      var p := buckets[..|buckets| - 1];
      LocatedSucceedsIff(p, location);
      assert forall k :: 0 <= k < |p| ==> p[k] == buckets[k];
    }
  }

  /** Each bucket keeps its place and its name, and its `BucketRegion`
      becomes its location constraint, or "" when that is absent. */
  lemma {:induction false} LocatedValue(buckets: seq<Bucket>, location: Option<string> -> Result<LocationOutput, AwsError>)
    requires Located(buckets, location).Success?
    ensures |Located(buckets, location).value| == |buckets|
    ensures forall k :: 0 <= k < |buckets| ==>
      location(buckets[k].name).Success? &&
      Located(buckets, location).value[k] == buckets[k].(bucketRegion := Some(LocationRegion(location(buckets[k].name).value)))
  {
    if buckets != [] {
      var p := buckets[..|buckets| - 1];
      LocatedValue(p, location);
      assert forall k :: 0 <= k < |p| ==> p[k] == buckets[k];
    }
  }

  /** A failed listing carries the error of the first bucket whose location
      call failed. */
  lemma {:induction false} LocatedFailsWithFirstError(buckets: seq<Bucket>, location: Option<string> -> Result<LocationOutput, AwsError>)
    requires Located(buckets, location).Failure?
    ensures exists k :: (0 <= k < |buckets|
      && location(buckets[k].name) == Failure(Located(buckets, location).error)
      && forall j :: 0 <= j < k ==> location(buckets[j].name).Success?)
  {
    var p := buckets[..|buckets| - 1];
    var last := |buckets| - 1;
    if Located(p, location).Failure? {
      LocatedFailsWithFirstError(p, location);
      var k :| 0 <= k < |p| && location(p[k].name) == Failure(Located(p, location).error)
        && forall j :: 0 <= j < k ==> location(p[j].name).Success?;
      assert forall j :: 0 <= j <= k ==> p[j] == buckets[j];
    } else {
      LocatedSucceedsIff(p, location);
      assert forall j :: 0 <= j < last ==> p[j] == buckets[j];
      assert location(buckets[last].name) == Failure(Located(buckets, location).error);
    }
  }

  /** One turn of the location loop: bucket `i` is still as listed, and its
      location call either ends the run with its error or sets its region. */
  lemma LocateStep(listed: seq<Bucket>, i: nat, location: Option<string> -> Result<LocationOutput, AwsError>,
                   buckets: seq<Bucket>)
    requires i < |listed| && |buckets| == |listed|
    requires Located(listed[..i], location).Success?
    requires buckets == Located(listed[..i], location).value + listed[i..]
    ensures buckets[i] == listed[i]
    ensures location(listed[i].name).Failure? ==> Located(listed, location) == Failure(location(listed[i].name).error)
    ensures location(listed[i].name).Success? ==>
      Located(listed[..i + 1], location).Success?
      && buckets[i := buckets[i].(bucketRegion := Some(LocationRegion(location(listed[i].name).value)))]
         == Located(listed[..i + 1], location).value + listed[i + 1..]
  {
    var done := Located(listed[..i], location).value;
    assert |done| == i by {
      LocatedValue(listed[..i], location);
    }
    assert buckets[i] == listed[i] by {
      assert buckets[i] == listed[i..][0];
    }
    var loc := location(listed[i].name);
    if loc.Failure? {
      assert Located(listed[..i + 1], location) == Failure(loc.error) by {
        assert listed[..i + 1] == listed[..i] + [listed[i]];
        LocatedSnoc(listed[..i], listed[i], location);
      }
      LocatedFailurePersists(listed, i + 1, location);
    } else {
      var b := listed[i].(bucketRegion := Some(LocationRegion(loc.value)));
      assert Located(listed[..i + 1], location) == Success(done + [b]) by {
        assert listed[..i + 1] == listed[..i] + [listed[i]];
        LocatedSnoc(listed[..i], listed[i], location);
      }
      var updated := buckets[i := b];
      var target := (done + [b]) + listed[i + 1..];
      forall k | 0 <= k < |updated|
        ensures updated[k] == target[k]
      {
        if k > i {
          assert buckets[k] == listed[i..][k - i];
        }
      }
      assert updated == target;
    }
  }

  /** Lines 27-32: set each bucket's `BucketRegion` in place from its location
      call, in order; a failing call is rethrown. */
  method LocateBuckets(listed: seq<Bucket>, location: Option<string> -> Result<LocationOutput, AwsError>)
    returns (r: Result<seq<Bucket>, AwsError>)
    ensures r == Located(listed, location)
  {
    var buckets := listed;
    for i := 0 to |buckets|
      invariant |buckets| == |listed|
      invariant Located(listed[..i], location).Success?
      invariant buckets == Located(listed[..i], location).value + listed[i..]
    {
      LocateStep(listed, i, location, buckets);
      var bucketRegion := location(buckets[i].name);
      if bucketRegion.Failure? {
        return Failure(bucketRegion.error);
      }
      buckets := buckets[i := buckets[i].(bucketRegion := Some(LocationRegion(bucketRegion.value)))];
    }
    assert listed[..|listed|] == listed;
    assert listed[|listed|..] == [];
    assert Located(listed, location).value + [] == Located(listed, location).value;
    return Success(buckets);
  }

  /** `listBuckets`: `listing` is the ListBuckets call, `location` the
      GetBucketLocation call for a bucket name, `costs` the outcome of the
      S3 cost lookup. A failing listing or location call fails the whole
      call; a failing cost lookup does not. */
  method ListBuckets(listing: Result<ListBucketsOutput, AwsError>,
                     location: Option<string> -> Result<LocationOutput, AwsError>,
                     costs: Result<seq<ServiceCostSummary>, AwsError>)
    returns (r: Result<BucketListing, AwsError>)
    ensures listing.Failure? ==> r == Failure(listing.error)
    ensures listing.Success? ==>
      var located := Located(listing.value.buckets.GetOr([]), location);
      r == if located.Failure? then Failure(located.error)
           else Success(BucketListing(FirstServiceCost(costs).0, Attach(located.value, BucketNameOf, FirstServiceCost(costs).1)))
  {
    if listing.Failure? {
      return Failure(listing.error);
    }
    var located := LocateBuckets(listing.value.buckets.GetOr([]), location);
    if located.Failure? {
      return Failure(located.error);
    }
    var buckets := located.value;
    var totalCost, costMap := FirstServiceCostMap(costs);
    return Success(BucketListing(totalCost, Attach(buckets, BucketNameOf, costMap)));
  }

  /** `listObjects`: `contents` is the ListObjectsV2 call for the bucket in
      its region; objects are matched to costs by `Key`. */
  method ListObjects(contents: Result<ListObjectsOutput, AwsError>,
                     costs: Result<seq<ServiceCostSummary>, AwsError>)
    returns (r: Result<ObjectListing, AwsError>)
    ensures contents.Failure? ==> r == Failure(contents.error)
    ensures contents.Success? ==>
      r == Success(ObjectListing(FirstServiceCost(costs).0,
                                 Attach(contents.value.contents.GetOr([]), ObjectKeyOf, FirstServiceCost(costs).1)))
  {
    if contents.Failure? {
      return Failure(contents.error);
    }
    var objects := contents.value.contents.GetOr([]);
    var totalCost, costMap := FirstServiceCostMap(costs);
    return Success(ObjectListing(totalCost, Attach(objects, ObjectKeyOf, costMap)));
  }

  /** The first service of an attribution is the service of the first group. */
  lemma {:induction false} FirstServiceIsFirstGroupService(groups: seq<Group>)
    requires |groups| > 0
    ensures |Services(groups)| > 0 && Services(groups)[0] == groups[0].key1
  {
    if |groups| > 1 {
      var p := groups[..|groups| - 1];
      FirstServiceIsFirstGroupService(p);
      assert p[0] == groups[0];
    }
  }

  /** Fed by the attribution join, the S3 `totalCost` is the sum of the
      non-negative costs of the service that appears first in the billing
      groups, and the table is built from that service's records only. */
  lemma StorageTotalIsFirstServiceTotal(serviceGroups: seq<Group>, regionGroups: seq<Group>)
    requires |serviceGroups| > 0
    ensures var rs := Records(GroupsOf(serviceGroups, serviceGroups[0].key1), RegionIndex(regionGroups));
      FirstServiceCost(Success(Attribute(serviceGroups, regionGroups))) == (TotalOf(rs), LastWins(CostEntries(rs)))
  {
    FirstServiceIsFirstGroupService(serviceGroups);
  }
}
