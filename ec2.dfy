/** EC2 inventory across regions (src/lib/ec2.ts): every enabled region is
    asked for its instances (or volumes), a region whose call fails counts as
    empty, the per-region lists are concatenated in region order, and each
    item gets its billed cost attached. */
module Ec2 {
  import opened Wrappers
  import opened Sequences
  import opened HandleError
  import opened CostExplorer
  import opened CostAttachment

  datatype InstanceState = InstanceState(name: Option<string>)

  /** The fields of an EC2 instance the backend reads. */
  datatype Instance = Instance(instanceId: Option<string>, state: Option<InstanceState>, publicIpAddress: Option<string>)

  datatype Reservation = Reservation(instances: Option<seq<Instance>>)

  datatype DescribeInstancesOutput = DescribeInstancesOutput(reservations: Option<seq<Reservation>>)

  /** The fields of an EBS volume the backend reads. */
  datatype Volume = Volume(volumeId: Option<string>, size: Option<int>, volumeType: Option<string>)

  datatype DescribeVolumesOutput = DescribeVolumesOutput(volumes: Option<seq<Volume>>)

  /** The service names passed to the cost lookup. */
  const ComputeService := "Amazon Elastic Compute Cloud - Compute"
  const BlockStoreService := "Amazon Elastic Block Store"

  /** A region whose describe call fails is replaced by `{ Reservations: [] }`. */
  function RecoveredInstances(outcome: Result<DescribeInstancesOutput, AwsError>): DescribeInstancesOutput {
    if outcome.Success? then outcome.value else DescribeInstancesOutput(Some([]))
  }

  /** `Reservations?.flatMap(r => r.Instances || []) || []`. */
  function ReservedInstances(out: DescribeInstancesOutput): seq<Instance> {
    var reservations := out.reservations.GetOr([]);
    Concat(seq(|reservations|, i requires 0 <= i < |reservations| => reservations[i].instances.GetOr([])))
  }

  /** What each region contributes, in region order. */
  function InstanceLists(regions: seq<string>, describe: string -> Result<DescribeInstancesOutput, AwsError>): seq<seq<Instance>> {
    seq(|regions|, i requires 0 <= i < |regions| => ReservedInstances(RecoveredInstances(describe(regions[i]))))
  }

  function MergedInstances(regions: seq<string>, describe: string -> Result<DescribeInstancesOutput, AwsError>): seq<Instance> {
    Concat(InstanceLists(regions, describe))
  }

  /** `res.Volumes || []`, and `[]` for a region whose call fails. */
  function RegionVolumes(outcome: Result<DescribeVolumesOutput, AwsError>): seq<Volume> {
    if outcome.Success? then outcome.value.volumes.GetOr([]) else []
  }

  function VolumeLists(regions: seq<string>, describe: string -> Result<DescribeVolumesOutput, AwsError>): seq<seq<Volume>> {
    seq(|regions|, i requires 0 <= i < |regions| => RegionVolumes(describe(regions[i])))
  }

  function MergedVolumes(regions: seq<string>, describe: string -> Result<DescribeVolumesOutput, AwsError>): seq<Volume> {
    Concat(VolumeLists(regions, describe))
  }

  function InstanceIdOf(instance: Instance): Option<string> {
    instance.instanceId
  }

  function VolumeIdOf(volume: Volume): Option<string> {
    volume.volumeId
  }

  /** `listInstances`: `regions` is the outcome of the region directory,
      `describe` the per-region DescribeInstances call, `costs` the outcome
      of the cost lookup for EC2 compute. Only a failed region directory
      fails the listing. */
  method ListInstances(regions: Result<seq<string>, AwsError>,
                       describe: string -> Result<DescribeInstancesOutput, AwsError>,
                       costs: Result<seq<ServiceCostSummary>, AwsError>)
    returns (r: Result<seq<Costed<Instance>>, AwsError>)
    ensures regions.Failure? ==> r == Failure(regions.error)
    ensures regions.Success? ==>
      r == Success(Attach(MergedInstances(regions.value, describe), InstanceIdOf, CostMapOrEmpty(costs)))
  {
    if regions.Failure? {
      return Failure(regions.error);
    }
    var regionNames := regions.value;
    var results: seq<DescribeInstancesOutput> := [];
    for i := 0 to |regionNames|
      invariant |results| == i
      invariant forall j :: 0 <= j < i ==> results[j] == RecoveredInstances(describe(regionNames[j]))
    {
      var outcome := describe(regionNames[i]);
      results := results + [RecoveredInstances(outcome)];
    }
    ghost var lists := InstanceLists(regionNames, describe);
    var allInstances: seq<Instance> := [];
    for i := 0 to |results|
      invariant allInstances == Concat(lists[..i])
    {
      var instances := ReservedInstances(results[i]);
      assert lists[..i + 1] == lists[..i] + [instances];
      ConcatSnoc(lists[..i], instances);
      allInstances := allInstances + instances;
    }
    assert lists[..|results|] == lists;
    var costMap: map<string, real> := map[];
    if costs.Success? {
      costMap := BuildCostMap(costs.value);
    }
    return Success(Attach(allInstances, InstanceIdOf, costMap));
  }

  /** `listVolumes`, with the same shape as `listInstances`. */
  method ListVolumes(regions: Result<seq<string>, AwsError>,
                     describe: string -> Result<DescribeVolumesOutput, AwsError>,
                     costs: Result<seq<ServiceCostSummary>, AwsError>)
    returns (r: Result<seq<Costed<Volume>>, AwsError>)
    ensures regions.Failure? ==> r == Failure(regions.error)
    ensures regions.Success? ==>
      r == Success(Attach(MergedVolumes(regions.value, describe), VolumeIdOf, CostMapOrEmpty(costs)))
  {
    if regions.Failure? {
      return Failure(regions.error);
    }
    var regionNames := regions.value;
    var results: seq<seq<Volume>> := [];
    for i := 0 to |regionNames|
      invariant results == VolumeLists(regionNames, describe)[..i]
    {
      var outcome := describe(regionNames[i]);
      results := results + [RegionVolumes(outcome)];
    }
    assert results == VolumeLists(regionNames, describe);
    var allVolumes: seq<Volume> := [];
    for i := 0 to |results|
      invariant allVolumes == Concat(results[..i])
    {
      assert results[..i + 1] == results[..i] + [results[i]];
      ConcatSnoc(results[..i], results[i]);
      allVolumes := allVolumes + results[i];
    }
    assert results[..|results|] == results;
    var costMap: map<string, real> := map[];
    if costs.Success? {
      costMap := BuildCostMap(costs.value);
    }
    return Success(Attach(allVolumes, VolumeIdOf, costMap));
  }

  /** The merge is in region order: the regions of `a` then those of `b`. */
  lemma MergedInstancesAppend(a: seq<string>, b: seq<string>, describe: string -> Result<DescribeInstancesOutput, AwsError>)
    ensures MergedInstances(a + b, describe) == MergedInstances(a, describe) + MergedInstances(b, describe)
  {
    assert InstanceLists(a + b, describe) == InstanceLists(a, describe) + InstanceLists(b, describe);
    ConcatAppend(InstanceLists(a, describe), InstanceLists(b, describe));
  }

  /** A region whose call fails contributes nothing: the merge is the same
      as if that region had not been asked. */
  lemma FailedRegionContributesNothing(regions: seq<string>, describe: string -> Result<DescribeInstancesOutput, AwsError>, k: nat)
    requires k < |regions| && describe(regions[k]).Failure?
    ensures MergedInstances(regions, describe) == MergedInstances(regions[..k] + regions[k + 1..], describe)
  {
    var lists := InstanceLists(regions, describe);
    assert ReservedInstances(DescribeInstancesOutput(Some([]))) == [];
    ConcatWithoutEmpty(lists, k);
    assert lists[..k] + lists[k + 1..] == InstanceLists(regions[..k] + regions[k + 1..], describe);
  }

  /** An instance is listed exactly when some region's call succeeded and
      one of that region's reservations holds it: one failing region does
      not stop the others. */
  lemma MergedInstancesMembership(regions: seq<string>, describe: string -> Result<DescribeInstancesOutput, AwsError>, x: Instance)
    ensures x in MergedInstances(regions, describe) <==>
      exists k :: 0 <= k < |regions| && describe(regions[k]).Success? && x in ReservedInstances(describe(regions[k]).value)
  {
    var lists := InstanceLists(regions, describe);
    ConcatMembership(lists, x);
    assert ReservedInstances(DescribeInstancesOutput(Some([]))) == [];
    if exists k :: 0 <= k < |regions| && describe(regions[k]).Success? && x in ReservedInstances(describe(regions[k]).value) {
      var k :| 0 <= k < |regions| && describe(regions[k]).Success? && x in ReservedInstances(describe(regions[k]).value);
      assert x in lists[k];
    }
  }

  /** The number of instances is the sum of what each region contributes. */
  lemma MergedInstancesCount(regions: seq<string>, describe: string -> Result<DescribeInstancesOutput, AwsError>)
    ensures |MergedInstances(regions, describe)| == TotalLength(InstanceLists(regions, describe))
  {
    ConcatLength(InstanceLists(regions, describe));
  }

  lemma MergedVolumesAppend(a: seq<string>, b: seq<string>, describe: string -> Result<DescribeVolumesOutput, AwsError>)
    ensures MergedVolumes(a + b, describe) == MergedVolumes(a, describe) + MergedVolumes(b, describe)
  {
    assert VolumeLists(a + b, describe) == VolumeLists(a, describe) + VolumeLists(b, describe);
    ConcatAppend(VolumeLists(a, describe), VolumeLists(b, describe));
  }

  /** A region whose call fails, or that reports no `Volumes`, contributes nothing. */
  lemma EmptyVolumeRegionContributesNothing(regions: seq<string>, describe: string -> Result<DescribeVolumesOutput, AwsError>, k: nat)
    requires k < |regions|
    requires describe(regions[k]).Failure? || describe(regions[k]).value.volumes.None?
    ensures MergedVolumes(regions, describe) == MergedVolumes(regions[..k] + regions[k + 1..], describe)
  {
    var lists := VolumeLists(regions, describe);
    ConcatWithoutEmpty(lists, k);
    assert lists[..k] + lists[k + 1..] == VolumeLists(regions[..k] + regions[k + 1..], describe);
  }

  lemma MergedVolumesMembership(regions: seq<string>, describe: string -> Result<DescribeVolumesOutput, AwsError>, x: Volume)
    ensures x in MergedVolumes(regions, describe) <==>
      exists k :: 0 <= k < |regions| && describe(regions[k]).Success? && x in describe(regions[k]).value.volumes.GetOr([])
  {
    var lists := VolumeLists(regions, describe);
    ConcatMembership(lists, x);
    if exists k :: 0 <= k < |regions| && describe(regions[k]).Success? && x in describe(regions[k]).value.volumes.GetOr([]) {
      var k :| 0 <= k < |regions| && describe(regions[k]).Success? && x in describe(regions[k]).value.volumes.GetOr([]);
      assert x in lists[k];
    }
  }

  /** When the cost lookup fails the listing still succeeds, with every
      instance present, in order, at cost 0. */
  lemma InstancesWithoutCosts(regions: seq<string>, describe: string -> Result<DescribeInstancesOutput, AwsError>, e: AwsError)
    ensures var r := Attach(MergedInstances(regions, describe), InstanceIdOf, CostMapOrEmpty(Failure(e)));
      |r| == |MergedInstances(regions, describe)|
      && forall i :: 0 <= i < |r| ==> r[i] == Costed(MergedInstances(regions, describe)[i], 0.0)
  {
    FailedCostFetchGivesZeroCosts(MergedInstances(regions, describe), InstanceIdOf, e);
  }
}
