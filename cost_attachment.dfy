/** Attaching billed costs to inventory items (src/lib/ec2.ts lines 49-74 and
    112-137, src/lib/s3.ts lines 36-56 and 84-104): an `id -> cost` table is
    built from the cost summaries, then each item gets `cost = table[id] ?? 0`. */
module CostAttachment {
  import opened Wrappers
  import opened KeyedMaps
  import opened Sequences
  import opened HandleError
  import opened CostExplorer

  /** An inventory item with its `cost` field attached (`{ ...item, cost }`). */
  datatype Costed<T> = Costed(item: T, cost: real)

  /** Each record read as the entry `id -> cost`. */
  function CostEntries(rs: seq<ResourceCostRecord>): seq<(string, real)> {
    seq(|rs|, i requires 0 <= i < |rs| => (rs[i].id, rs[i].cost))
  }

  /** Each service's resource list. */
  function ResourceLists(summaries: seq<ServiceCostSummary>): seq<seq<ResourceCostRecord>> {
    seq(|summaries|, i requires 0 <= i < |summaries| => summaries[i].resources)
  }

  /** The resources of every service, service after service. */
  function AllResources(summaries: seq<ServiceCostSummary>): seq<ResourceCostRecord> {
    Concat(ResourceLists(summaries))
  }

  /** The EC2/EBS table: every service's records, later ones overwriting,
      records with an empty id skipped. */
  function CostMapOfAll(summaries: seq<ServiceCostSummary>): map<string, real> {
    LastWins(CostEntries(AllResources(summaries)))
  }

  /** The table of a cost fetch that may have thrown: empty when it did. */
  function CostMapOrEmpty(costs: Result<seq<ServiceCostSummary>, AwsError>): map<string, real> {
    if costs.Success? then CostMapOfAll(costs.value) else map[]
  }

  /** The S3 reading of a cost fetch: only the first service entry counts; a
      fetch that threw or returned nothing gives a zero total and no table. */
  function FirstServiceCost(costs: Result<seq<ServiceCostSummary>, AwsError>): (real, map<string, real>) {
    if costs.Success? && |costs.value| > 0 then
      (costs.value[0].totalCost, LastWins(CostEntries(costs.value[0].resources)))
    else (0.0, map[])
  }

  lemma CostEntriesSnoc(rs: seq<ResourceCostRecord>, r: ResourceCostRecord)
    ensures CostEntries(rs + [r]) == CostEntries(rs) + [(r.id, r.cost)]
  {
  }

  /** One record written into the table, as the loop bodies do. */
  lemma CostMapStep(done: seq<ResourceCostRecord>, r: ResourceCostRecord)
    ensures LastWins(CostEntries(done + [r])) ==
      if r.id != "" then LastWins(CostEntries(done))[r.id := r.cost] else LastWins(CostEntries(done))
  {
    CostEntriesSnoc(done, r);
    LastWinsSnoc(CostEntries(done), (r.id, r.cost));
  }

  /** Extending the first `s` services' resources by the next service's. */
  lemma ResourceListsStep(summaries: seq<ServiceCostSummary>, s: nat)
    requires s < |summaries|
    ensures Concat(ResourceLists(summaries)[..s + 1]) ==
      Concat(ResourceLists(summaries)[..s]) + summaries[s].resources
  {
    ConcatPrefixStep(ResourceLists(summaries), s);
  }

  /** ec2.ts lines 55-65 / 118-128: the nested loops filling `costMap`. */
  method BuildCostMap(summaries: seq<ServiceCostSummary>) returns (costMap: map<string, real>)
    ensures costMap == CostMapOfAll(summaries)
  {
    costMap := map[];
    for s := 0 to |summaries|
      invariant costMap == LastWins(CostEntries(Concat(ResourceLists(summaries)[..s])))
    {
      var resources := summaries[s].resources;
      ghost var done := Concat(ResourceLists(summaries)[..s]);
      assert done + resources[..0] == done;
      for k := 0 to |resources|
        invariant costMap == LastWins(CostEntries(done + resources[..k]))
      {
        var resource := resources[k];
        PrefixStep(done, resources, k);
        CostMapStep(done + resources[..k], resource);
        if resource.id != "" {
          costMap := costMap[resource.id := resource.cost];
        }
      }
      assert resources[..|resources|] == resources;
      ResourceListsStep(summaries, s);
    }
    assert ResourceLists(summaries)[..|summaries|] == ResourceLists(summaries);
  }

  /** s3.ts lines 44-48 / 91-95: one service's resources into `costMap`. */
  method BuildResourceCostMap(resources: seq<ResourceCostRecord>) returns (costMap: map<string, real>)
    ensures costMap == LastWins(CostEntries(resources))
  {
    costMap := map[];
    for k := 0 to |resources|
      invariant costMap == LastWins(CostEntries(resources[..k]))
    {
      var resource := resources[k];
      assert resources[..k + 1] == resources[..k] + [resource];
      CostMapStep(resources[..k], resource);
      if resource.id != "" {
        costMap := costMap[resource.id := resource.cost];
      }
    }
    assert resources[..|resources|] == resources;
  }

  /** s3.ts lines 36-51 / 84-98: the `try` block reading the first service
      entry; indexing an empty result throws, which leaves `totalCost` 0 and
      the table empty. */
  method FirstServiceCostMap(costs: Result<seq<ServiceCostSummary>, AwsError>)
    returns (totalCost: real, costMap: map<string, real>)
    ensures (totalCost, costMap) == FirstServiceCost(costs)
  {
    totalCost, costMap := 0.0, map[];
    if costs.Failure? || |costs.value| == 0 {
      return;
    }
    var service := costs.value[0];
    totalCost := service.totalCost;
    costMap := BuildResourceCostMap(service.resources);
  }

  /** With no usable cost result every attached cost is 0 and the total is 0. */
  lemma FirstServiceCostDefaults<T>(items: seq<T>, idOf: T -> Option<string>, costs: Result<seq<ServiceCostSummary>, AwsError>)
    requires costs.Failure? || costs.value == []
    ensures FirstServiceCost(costs).0 == 0.0
    ensures var r := Attach(items, idOf, FirstServiceCost(costs).1);
      |r| == |items| && forall i :: 0 <= i < |r| ==> r[i] == Costed(items[i], 0.0)
  {
  }

  /** Only the first service entry counts: records of later entries never
      reach the table, and the total is the first entry's. */
  lemma FirstServiceCostUsesFirstEntry(first: ServiceCostSummary, rest: seq<ServiceCostSummary>, k: string)
    ensures FirstServiceCost(Success([first] + rest)).0 == first.totalCost
    ensures k in FirstServiceCost(Success([first] + rest)).1 <==>
      k != "" && exists i :: 0 <= i < |first.resources| && first.resources[i].id == k
  {
    LastWinsDomain(CostEntries(first.resources), k);
    assert forall i :: 0 <= i < |first.resources| ==> CostEntries(first.resources)[i].0 == first.resources[i].id;
  }

  /** `costMap[id ?? ""] ?? 0`, reading only keys that were set. */
  function CostFor(costMap: map<string, real>, id: Option<string>): real {
    var key := id.GetOr("");
    if key in costMap then costMap[key] else 0.0
  }

  /** `items.map(item => ({ ...item, cost: costMap[idOf(item) ?? ""] ?? 0 }))`. */
  function Attach<T>(items: seq<T>, idOf: T -> Option<string>, costMap: map<string, real>): seq<Costed<T>> {
    seq(|items|, i requires 0 <= i < |items| => Costed(items[i], CostFor(costMap, idOf(items[i]))))
  }

  /** Attachment keeps every item, in order, and only adds a cost. */
  lemma AttachPreservesItems<T>(items: seq<T>, idOf: T -> Option<string>, costMap: map<string, real>)
    ensures |Attach(items, idOf, costMap)| == |items|
    ensures forall i :: 0 <= i < |items| ==> Attach(items, idOf, costMap)[i].item == items[i]
  {
  }

  /** An item's cost is that of the LAST cost record carrying its id. */
  lemma AttachedCostIsLastRecord<T>(items: seq<T>, idOf: T -> Option<string>, rs: seq<ResourceCostRecord>, i: nat, k: nat)
    requires i < |items| && k < |rs|
    requires idOf(items[i]) == Some(rs[k].id) && rs[k].id != ""
    requires forall l :: k < l < |rs| ==> rs[l].id != rs[k].id
    ensures Attach(items, idOf, LastWins(CostEntries(rs)))[i].cost == rs[k].cost
  {
    LastWinsValue(CostEntries(rs), k);
  }

  /** An item without an id, or whose id no cost record carries, costs 0. */
  lemma AttachedCostDefaultsToZero<T>(items: seq<T>, idOf: T -> Option<string>, rs: seq<ResourceCostRecord>, i: nat)
    requires i < |items|
    requires idOf(items[i]).None? || forall l :: 0 <= l < |rs| ==> rs[l].id != idOf(items[i]).value
    ensures Attach(items, idOf, LastWins(CostEntries(rs)))[i].cost == 0.0
  {
    var key := idOf(items[i]).GetOr("");
    if idOf(items[i]).Some? {
      LastWinsAbsent(CostEntries(rs), key);
    } else {
      LastWinsDomain(CostEntries(rs), key);
    }
  }

  /** When the cost fetch throws, every item still appears, with cost 0. */
  lemma FailedCostFetchGivesZeroCosts<T>(items: seq<T>, idOf: T -> Option<string>, e: AwsError)
    ensures var r := Attach(items, idOf, CostMapOrEmpty(Failure(e)));
      |r| == |items| && forall i :: 0 <= i < |r| ==> r[i].item == items[i] && r[i].cost == 0.0
  {
  }

  /** Across services, the EC2/EBS table is last-wins over the services'
      resources taken in order. */
  lemma AllResourcesMembership(summaries: seq<ServiceCostSummary>, r: ResourceCostRecord)
    ensures r in AllResources(summaries) <==> exists s :: 0 <= s < |summaries| && r in summaries[s].resources
  {
    var lists := ResourceLists(summaries);
    ConcatMembership(lists, r);
    if exists s :: 0 <= s < |summaries| && r in summaries[s].resources {
      var s :| 0 <= s < |summaries| && r in summaries[s].resources;
      assert r in lists[s];
    }
  }

  // ---------------------------------------------------------------------------
  // Lookup in a plain JavaScript object, as the source writes it

  /** The members every plain object inherits from Object.prototype. */
  const ObjectPrototypeMembers: set<string> :=
    {"constructor", "hasOwnProperty", "isPrototypeOf", "propertyIsEnumerable", "toLocaleString",
     "toString", "valueOf", "__proto__", "__defineGetter__", "__defineSetter__",
     "__lookupGetter__", "__lookupSetter__"}

  /** What `costMap[key] ?? 0` yields when `costMap` is a `{}` literal. */
  datatype JsCost = Number(value: real) | InheritedMember

  /** The source's lookup: an own key gives its number (assigning a number to
      `__proto__` creates no own key), an inherited member name gives that
      member (a function or Object.prototype, neither of which `?? 0`
      replaces), and anything else gives 0. */
  function PlainObjectCost(costMap: map<string, real>, id: Option<string>): JsCost {
    var key := id.GetOr("");
    if key != "__proto__" && key in costMap then Number(costMap[key])
    else if key in ObjectPrototypeMembers then InheritedMember
    else Number(0.0)
  }

  /** An S3 object whose Key is "toString" (or a bucket named "constructor")
      with no cost record gets a non-numeric `cost`. */
  lemma PrototypeKeyCounterexample()
    ensures PlainObjectCost(map[], Some("toString")) == InheritedMember
    ensures PlainObjectCost(map[], Some("constructor")) == InheritedMember
    ensures CostFor(map[], Some("toString")) == 0.0
  {
  }

  /** The corrected lookup (own keys only) always yields a number: the cost
      of the key when it was set, 0 otherwise; it agrees with the source's
      lookup on every id that is not an Object.prototype member name. */
  lemma CostForIsRecordOrZero(costMap: map<string, real>, id: Option<string>)
    ensures id.Some? && id.value in costMap ==> CostFor(costMap, id) == costMap[id.value]
    ensures (id.None? || id.value !in costMap) && "" !in costMap ==> CostFor(costMap, id) == 0.0
    ensures id.GetOr("") !in ObjectPrototypeMembers ==> PlainObjectCost(costMap, id) == Number(CostFor(costMap, id))
  {
  }
}
