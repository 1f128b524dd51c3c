# Cloud inventory and cost attribution, modelled in Dafny

This project models the deterministic core of a small Express backend. The
backend lists a cloud account's resources and attributes billed costs to them.
The model covers:

- **Cost attribution join** (`CostExplorer`). Two grouped billing results are
  joined: (SERVICE, RESOURCE_ID) groups and (REGION, RESOURCE_ID) groups. The
  output is one summary per service, holding its resources, their regions and
  costs, and a total that leaves out credits. The two call sites of the join
  share one definition. `getServiceCost` puts it behind a file cache keyed by
  access key, service and 15-minute window.
- **Region directory** (`Account`). An access key's enabled regions, with a
  per-key cache file.
- **Multi-region inventory** (`Ec2`, `S3`, `CostAttachment`). Per-region
  listings are merged, an `id -> cost` table is built from the cost summaries,
  and each item gets its cost.
- **Inventory controllers** (`ListResources`, with `Tallies` for the
  plain-object counters). The compute summary, the combined storage report
  and its synthetic seven-day series.
- **Request validators** (`ValidateCreds`) and the error-to-HTTP mapping
  (`HandleError`).

Every SDK call is a function parameter that answers with a value or an
`AwsError`. Examples are the billing query, ListRegions, GetRegionOptStatus,
DescribeInstances, DescribeVolumes, ListBuckets, GetBucketLocation and
ListObjectsV2. A method that awaits another service method takes that method's
outcome as a parameter. For instance, `Ec2.ListInstances` receives the outcome
of `FetchRegions` and of `getServiceCost`. The cache directories are
`FileCache.Store` objects, which map a file to `Readable(value)` or
`Unreadable`; a missing key means the file does not exist. Costs are `real`.
Sizes and counts are `int`.

Modules, one per source file:

| module | file |
|---|---|
| `Wrappers`, `Sequences`, `KeyedMaps`, `FileCache`, `Tallies` | shared definitions (`Option`/`Result`, concatenation, last-wins tables, cache directories, plain-object counters) |
| `HandleError` | handle_error.dfy |
| `CostExplorer`, `CostAttributionProperties` | cost_explorer.dfy |
| `Account` | account.dfy |
| `CostAttachment` | cost_attachment.dfy |
| `Ec2` | ec2.dfy |
| `S3` | s3.dfy |
| `ListResources` | listresources.dfy |
| `ValidateCreds` | validatecreds.dfy |

## Model

| member | source | states |
|---|---|---|
| HandleError.HandleAwsError | src/handle_error.ts:3-21 | The status is 401 or 500. It is 401 exactly when the error name is `InvalidAccessKeyId` or `SignatureDoesNotMatch`; the body is then that name's text and has no message. Every other error gets 500, "AWS service error" and the error's own message. |
| HandleError.HandleAwsErrorMatchesTable | src/handle_error.ts:6-21 | The ordered if-chain agrees, on every error, with a table lookup of the two credential names that falls back to 500. |
| HandleError.ExactlyOneBranch | src/handle_error.ts:6-21 | Each of the three responses is produced exactly when its branch condition holds, so each call yields exactly one response. |
| HandleError.Respond | src/controller/listresources.ts:8-17 | A controller answers 200 with the value exactly when its service call succeeds. A thrown error is answered with `handleAWSError` of that error. |
| Wrappers.NonEmptyStrings | src/lib/account.ts:41 | `map(v => v \|\| "").filter(...)` keeps at most as many names as it is given, and none of them is empty. |
| Wrappers.NonEmptyStringsMembership | src/lib/cost_explorer.ts:104 | A name survives exactly when it is non-empty and present in the input. |
| Sequences.ConcatAppend | src/lib/ec2.ts:44-47 | Concatenating two runs of per-region lists equals concatenating their concatenations, so the merge is in region order. |
| Sequences.ConcatMembership | src/lib/ec2.ts:44-47 | An element is in the merged list exactly when it is in one of the per-region lists. |
| Sequences.ConcatLength | src/lib/ec2.ts:108-110 | The merged length is the sum of the per-region lengths. |
| Sequences.ConcatWithoutEmpty | src/lib/ec2.ts:100-103 | Dropping an empty per-region list leaves the merge unchanged. |
| KeyedMaps.LastWins | src/lib/cost_explorer.ts:159-167 | The table built by `set` in a loop has no empty key and at most one key per entry. |
| KeyedMaps.LastWinsDomain | src/lib/cost_explorer.ts:163-164 | A key is in the table exactly when it is non-empty and some entry names it. |
| KeyedMaps.LastWinsValue | src/lib/cost_explorer.ts:163-164 | A key's value is that of the last entry naming it. |
| KeyedMaps.LastWinsAbsent | src/lib/cost_explorer.ts:163-164 | A key that no entry names is absent. |
| CostExplorer.BuildRegionIndex | src/lib/cost_explorer.ts:158-167 | The nested loops leave exactly the last-wins `resourceId -> region` table of all region groups, taken in order. |
| CostExplorer.AggregateByService | src/lib/cost_explorer.ts:169-197 | The walk over the service groups, including the `continue` on negative costs, returns exactly `Summaries`. That is one summary per distinct service in first-appearance order, with one record per group and the non-negative sum as its total. |
| CostExplorer.AddGroup | src/lib/cost_explorer.ts:172-188 | One group: the service bucket is created if it is new and the record is pushed. The cost is added only when it is not negative. The bucket map and key order go on matching the service summaries of the groups seen so far, one group longer. |
| CostExplorer.Format | src/lib/cost_explorer.ts:192-197 | Over a bucket map and key order that track a list of groups, the formatted list is exactly `Summaries` of those groups: one summary per distinct service in first-appearance order, holding its records and its non-negative total. |
| CostExplorer.Join | src/lib/cost_explorer.ts:158-197 | The region table followed by the aggregation equals `Attribute` of the two group lists. |
| CostExplorer.QueryAndJoin | src/lib/cost_explorer.ts:106-197 | The service query is sent first and its error is rethrown. Then the region query is sent, with the same filters, and its error is rethrown. Then their groups are joined. Both `listAllCost` and `getServiceCost` use this one definition. |
| CostExplorer.QueryAndAttribute | src/lib/cost_explorer.ts:106-197 | Reference definition, no contract. The first failing grouped query's error; otherwise `Attribute` of the two group lists. `QueryAndJoin` is proved equal to it. |
| CostExplorer.Attribute | src/lib/cost_explorer.ts:158-197 | Reference definition, no contract. `Summaries` of the service groups under `RegionIndex` of the region groups. The CostAttributionProperties lemmas state what it promises. |
| CostExplorer.CostExplorerService.ListAllCost | src/lib/cost_explorer.ts:84-204 | A region-directory error or a dimension-listing error is rethrown. A listing without `DimensionValues` fails with "No services found…". Otherwise the result is the join over the non-empty service names. |
| CostExplorer.CostExplorerService.GetServiceCost | src/lib/cost_explorer.ts:206-334 | A readable cache file for (owner, service, window) is returned unchanged, with no query. Otherwise, including for an unreadable file, the pipeline runs for this one service. An error is rethrown and the cache is unchanged. A failed write is rethrown and the cache is unchanged. On success the file holds exactly the returned value. |
| CostExplorer.RefreshTwice | src/lib/cost_explorer.ts:217-230 | A second call in the same window, after a successful first call, returns the same value without any billing query. |
| CostExplorer.Bucket | src/lib/cost_explorer.ts:218 | `floor(t/900000)*900000` is the multiple of 15 minutes that starts the window holding `t`. |
| CostExplorer.SameBucketIffSameWindow | src/lib/cost_explorer.ts:218 | Two timestamps share a bucket exactly when the second lies in the window that starts at the first one's bucket. |
| CostExplorer.CacheOwner | src/lib/cost_explorer.ts:215 | Reference definition, no contract. The cache directory: the access key id, or "unknown" when it is empty. |
| CostExplorer.CostCacheKeyAt | src/lib/cost_explorer.ts:215-222 | Reference definition, no contract. The cache file identity: owner, service name and 15-minute window start. `CacheKeyShared` characterises when two calls share it. |
| CostExplorer.CacheKeyShared | src/lib/cost_explorer.ts:215-222 | Two calls share a cache file exactly when they share the owner (the access key, or "unknown"), the service name and the window. |
| CostAttributionProperties.RecordRegionIsLastRegionGroup | src/lib/cost_explorer.ts:158-175 | A record's region is that of the last region group naming its resource, or "Unknown" when that region is empty. |
| CostAttributionProperties.RecordRegionUnknown | src/lib/cost_explorer.ts:175 | A resource that no region group names gets region "Unknown". |
| CostAttributionProperties.ServicesDistinct | src/lib/cost_explorer.ts:178-180 | A service is given a bucket only once. |
| CostAttributionProperties.ServicesMembership | src/lib/cost_explorer.ts:178-180 | A service has a bucket exactly when some group names it. |
| CostAttributionProperties.AttributeServices | src/lib/cost_explorer.ts:193-197 | The output has one summary per distinct service of the input, and no service twice. |
| CostAttributionProperties.FirstIndex | src/lib/cost_explorer.ts:172-180 | The position where a service first appears. |
| CostAttributionProperties.ServicesInFirstAppearanceOrder | src/lib/cost_explorer.ts:193-197 | Summaries come in the order in which their services first appear in the groups. |
| CostAttributionProperties.RecordCountPerService | src/lib/cost_explorer.ts:172-185 | A service has exactly as many records as there are groups naming it. |
| CostAttributionProperties.GroupsOfMembership | src/lib/cost_explorer.ts:181-185 | Every record of a service comes from one of that service's groups. |
| CostAttributionProperties.RecordCountAll | src/lib/cost_explorer.ts:172-185 | Summed over the services, the record counts equal the number of groups. |
| CostAttributionProperties.NothingDropped | src/lib/cost_explorer.ts:172-197 | The output holds exactly one record per service group. |
| CostAttributionProperties.SummaryRecords | src/lib/cost_explorer.ts:181-185 | Each summary's records are its groups, in input order, with the group's resource id and cost. Missing amounts cost 0. |
| CostAttributionProperties.TotalIsNonNegative | src/lib/cost_explorer.ts:186-188 | A total is never negative. |
| CostAttributionProperties.TotalIsGrossMinusCredits | src/lib/cost_explorer.ts:186-188 | A total equals the sum of all costs minus the sum of the credits. |
| CostAttributionProperties.CreditLeavesTotalUnchanged | src/lib/cost_explorer.ts:186-188 | Appending a negative-cost record (a credit) leaves the total unchanged. |
| CostAttributionProperties.ChargeBoundedByTotal | src/lib/cost_explorer.ts:186-188 | Every non-negative cost is at most its service's total. |
| CostAttributionProperties.SummaryTotal | src/lib/cost_explorer.ts:181-188 | Each summary's total is the non-negative part of its records' costs. |
| CostAttributionProperties.TwoBucketExample | src/lib/cost_explorer.ts:158-197 | Example: S3 bucket-a costs 5.0 in us-east-1 and bucket-b has a 2.0 credit in eu-west-1. They give one S3 summary with total 5.0 and both records. |
| Account.EnabledAmong | src/lib/account.ts:41-50 | Reference definition, no contract. The non-empty listed names whose opt status is ENABLED_BY_DEFAULT, in listing order, or the first status check's error. The Account lemmas below characterise it. |
| Account.FailurePersists | src/lib/account.ts:45-46 | Once a status check has failed, later regions do not change the outcome. |
| Account.EnabledSucceedsIffAllChecksSucceed | src/lib/account.ts:45-50 | The filter succeeds exactly when every status check succeeds. |
| Account.EnabledFailsWithFirstError | src/lib/account.ts:45-62 | A failed filter rethrows the error of the first failing status check. |
| Account.EnabledMembership | src/lib/account.ts:45-50 | A region is kept exactly when it is listed and its status is `ENABLED_BY_DEFAULT`. |
| Account.EnabledIsSubsequence | src/lib/account.ts:45-50 | The kept regions are in listing order. |
| Account.RegionCacheFile | src/lib/account.ts:21-24 | Reference definition, no contract. `<accessKeyId>.json` in the region cache directory. |
| Account.RegionCacheFileInjective | src/lib/account.ts:21-24 | The cache file depends only on the access key id, and distinct ids get distinct files. |
| Account.AccountService.FetchRegions | src/lib/account.ts:26-63 | A readable cache file is returned as-is and becomes `this.regions`, with no region checked. A listing error is rethrown and nothing changes. Otherwise the non-empty names are checked in listing order. A failing status check is rethrown. It is the last check sent, every earlier check succeeded, and the regions and cache stay unchanged. On success `this.regions` is the enabled list, and the file holds exactly that list unless the write error is rethrown. |
| CostAttachment.BuildCostMap | src/lib/ec2.ts:50-65 | The nested loops leave the last-wins `id -> cost` table of every service's records, taken in order, with empty ids skipped. |
| CostAttachment.BuildResourceCostMap | src/lib/s3.ts:44-48 | The loop leaves the last-wins table of one service's records. |
| CostAttachment.FirstServiceCost | src/lib/s3.ts:36-48 | Reference definition, no contract. The first service entry's total and its last-wins id-to-cost table; 0 and an empty table when the fetch threw or returned nothing. |
| CostAttachment.FirstServiceCostMap | src/lib/s3.ts:36-51 | The `try` block yields the first service entry's total and table. It yields 0 and an empty table when the lookup throws or returns no entry. |
| CostAttachment.FirstServiceCostDefaults | src/lib/s3.ts:84-98 | An empty or failed cost lookup gives total 0 and cost 0 for every item. |
| CostAttachment.FirstServiceCostUsesFirstEntry | src/lib/s3.ts:42-48 | Only the first entry counts: the total is its total, and the table's keys are exactly its records' non-empty ids. |
| CostAttachment.CostFor | src/lib/ec2.ts:73 | Reference definition, no contract. `costMap[id ?? ""] ?? 0` over the keys that were set: the recorded cost or 0. |
| CostAttachment.Attach | src/lib/ec2.ts:71-74 | Reference definition, no contract. Each item paired with `CostFor` of its id, in order (also s3.ts:53-56 and s3.ts:101-104). |
| CostAttachment.AttachPreservesItems | src/lib/ec2.ts:71-74 | Attachment keeps every item, in order, and only adds `cost`. |
| CostAttachment.AttachedCostIsLastRecord | src/lib/ec2.ts:55-74 | An item's cost is that of the last cost record carrying its id. |
| CostAttachment.AttachedCostDefaultsToZero | src/lib/ec2.ts:134-137 | An item without an id, or whose id no record carries, costs 0. |
| CostAttachment.FailedCostFetchGivesZeroCosts | src/lib/ec2.ts:66-74 | When the cost lookup throws, every item is still listed, with cost 0. |
| CostAttachment.AllResourcesMembership | src/lib/ec2.ts:56-58 | The EC2/EBS table reads the records of every service entry, not only the first. |
| CostAttachment.PlainObjectCost | src/lib/s3.ts:101-104 | The as-written lookup on a `{}` literal, no contract. An own key gives its number, but a key assigned as `__proto__` creates none. An inherited `Object.prototype` member name gives that member, and anything else gives 0. |
| CostAttachment.PrototypeKeyCounterexample | src/lib/s3.ts:103 | As written, the lookup on a `{}` literal gives a non-number for an object with Key "toString" or "constructor". See Findings. |
| CostAttachment.CostForIsRecordOrZero | src/lib/s3.ts:101-104 | The corrected own-key lookup gives the record's cost or 0. It agrees with the source's lookup on every id that is not an `Object.prototype` member name. |
| Ec2.ListInstances | src/lib/ec2.ts:18-79 | A region-directory error is rethrown. Otherwise the result is the regions' instances, merged in order with failed regions counted as empty, and with the compute costs attached. |
| Ec2.ListVolumes | src/lib/ec2.ts:81-142 | The same shape for volumes. A missing `Volumes` and a failed region both count as empty. |
| Ec2.MergedInstancesAppend | src/lib/ec2.ts:44-47 | The merge is in region order. |
| Ec2.FailedRegionContributesNothing | src/lib/ec2.ts:34-39 | A region whose call fails adds nothing: the merge is as if it had not been asked. |
| Ec2.MergedInstancesMembership | src/lib/ec2.ts:25-47 | An instance is listed exactly when some region's call succeeded and one of its reservations holds it. |
| Ec2.MergedInstancesCount | src/lib/ec2.ts:44-47 | The count is the sum over the regions. |
| Ec2.MergedVolumesAppend | src/lib/ec2.ts:107-110 | The volume merge is in region order. |
| Ec2.EmptyVolumeRegionContributesNothing | src/lib/ec2.ts:97-104 | A failed region, or one without `Volumes`, adds nothing. |
| Ec2.MergedVolumesMembership | src/lib/ec2.ts:97-110 | A volume is listed exactly when some region's call succeeded and returned it. |
| Ec2.InstancesWithoutCosts | src/lib/ec2.ts:66-74 | If the cost lookup fails, every merged instance is returned, in order, at cost 0. |
| S3.Located | src/lib/s3.ts:27-32 | Reference definition, no contract. The listed buckets with `BucketRegion` set to `LocationConstraint || ""` in order, or the first failing location call's error. |
| S3.LocatedSucceedsIff | src/lib/s3.ts:27-32 | The bucket listing succeeds exactly when every location call does. |
| S3.LocatedValue | src/lib/s3.ts:27-32 | Each bucket keeps its place and name. Its `BucketRegion` becomes its location constraint, or "" when that is absent. |
| S3.LocatedFailsWithFirstError | src/lib/s3.ts:27-32 | A failure carries the error of the first failing location call. |
| S3.LocatedFailurePersists | src/lib/s3.ts:27-29 | Once a location call has failed, later buckets do not change the outcome. |
| S3.LocateBuckets | src/lib/s3.ts:27-32 | The in-place loop that writes each bucket's `BucketRegion` returns exactly `Located`. That is the first location error, or every bucket with its region and nothing else changed. |
| S3.ListBuckets | src/lib/s3.ts:18-66 | A listing error or location error is rethrown. Otherwise the buckets with their regions are returned, costed by `Name` against the first service entry, together with that entry's total (0 if none). |
| S3.ListObjects | src/lib/s3.ts:68-114 | A listing error is rethrown. Otherwise `Contents \|\| []` is returned, costed by `Key`, together with the first entry's total. |
| S3.FirstServiceIsFirstGroupService | src/lib/s3.ts:42-43 | The first service entry of the join is the service of the first group. |
| S3.StorageTotalIsFirstServiceTotal | src/lib/s3.ts:40-48 | Fed by the join, the S3 total is the non-negative cost sum of the first service. The table holds that service's records only. |
| Tallies.AddKeepsValid | src/controller/listresources.ts:233-234 | `obj[k] = (obj[k] \|\| 0) + v` keeps one key per insertion and adds `k`. |
| Tallies.AddValue | src/controller/listresources.ts:233 | Only `k`'s value changes, by `v`. |
| Tallies.AddOrder | src/controller/listresources.ts:233 | Existing keys stay, and `k` is added. |
| Tallies.AddTotal | src/controller/listresources.ts:233-234 | The sum of the values grows by `v`. |
| ListResources.Compute | src/controller/listresources.ts:170-193 | Reference definition, no contract. The TypeError of an instance without `State`. Otherwise the total, the per-state counts, the public and private counts and 0 reserved. `ComputeSummaryConsistent` and `MissingStateAnswers500` state its promises. |
| ListResources.GetCompute | src/controller/listresources.ts:159-201 | Reference definition, no contract. `Respond` of the listing error or of `Compute` of the listed instances. |
| ListResources.PublicPlusPrivate | src/controller/listresources.ts:176-177 | `publicInstances + privateInstances == totalInstances`. |
| ListResources.StateCountsBounded | src/controller/listresources.ts:171-173 | Running + stopped + terminated is at most the total. |
| ListResources.ComputeSummaryConsistent | src/controller/listresources.ts:170-196 | A computed summary has both properties above, and a reserved count of 0. |
| ListResources.MissingStateAnswers500 | src/controller/listresources.ts:171 | An instance without `State` makes `getCompute` answer 500 with the thrown message. |
| ListResources.ListingsOf | src/controller/listresources.ts:220-224 | A successful run lists one object listing per bucket. |
| ListResources.ListingsOfValue | src/controller/listresources.ts:221-224 | Each bucket is listed in its `BucketRegion`, or in the request region when that is empty. |
| ListResources.ListingsFailurePersists | src/controller/listresources.ts:224 | The first failing object listing ends the report. |
| ListResources.TotalsAreSumsOverRegions | src/controller/listresources.ts:213-235 | `totalSize` is the sum of the `regionSizes` values and `totalObjects` the sum of the `regionObjects` values. `emptyBuckets` is at most `totalBuckets`. |
| ListResources.EmptyBucketsCounted | src/controller/listresources.ts:227-230 | `emptyBuckets` equals the number of buckets whose object listing is empty, counted as a set of positions independent of the running sum. |
| ListResources.AddBucketKeepsSums | src/controller/listresources.ts:226-234 | One bucket's contribution keeps both running totals equal to the sums of their per-region tables, and `emptyBucketCount` within the number of buckets seen. |
| ListResources.SumBuckets | src/controller/listresources.ts:213-235 | The loop over the buckets rethrows the first object-listing error. Otherwise it ends with exactly `TotalsOf` the listings, which `TotalsAreSumsOverRegions` relates to the per-region tables. |
| ListResources.RegionEntriesAreSumsOfBuckets | src/controller/listresources.ts:233-234 | Each region's entry is the total size (object count) of the buckets under it. |
| ListResources.BucketHasRegionEntry | src/controller/listresources.ts:222 | Every bucket has an entry under its region. A bucket with an empty `BucketRegion` is counted under the request region. |
| ListResources.FloorOfTenths | src/controller/listresources.ts:239 | `Math.floor(x * 0.7)` and `Math.floor(x * 0.6)` are the largest integer not above `7x/10` or `6x/10`. |
| ListResources.UsedEstimateBounded | src/controller/listresources.ts:239 | The mocked used size lies between 0 and the provisioned size. |
| ListResources.VolumeTypeTotal | src/controller/listresources.ts:242-247 | The type counts sum to the number of volumes with a `VolumeType`, which is at most `totalEBSVolumes`. |
| ListResources.VolumeTypeCount | src/controller/listresources.ts:243-246 | Each type's count is the number of volumes of that type. |
| ListResources.CountVolumeTypes | src/controller/listresources.ts:243-247 | The `forEach` leaves exactly that histogram. |
| ListResources.VolumeTypeEntries | src/controller/listresources.ts:259-263 | Reference definition, no contract. One `{ name, value, color }` entry per volume type, in key order. |
| ListResources.ColorOfDefault | src/controller/listresources.ts:249-263 | A type gets `#6b7280` exactly when it is not one of the seven known types. |
| ListResources.TimeSeries | src/controller/listresources.ts:290-311 | Reference definition, no contract. Seven points, six days ago to today, each splitting the total as `floor(0.6 * total)` and the rest. `TimeSeriesShape` states this. |
| ListResources.GenerateTimeSeriesData | src/controller/listresources.ts:290-311 | The loop returns exactly the seven-point series. |
| ListResources.TimeSeriesShape | src/controller/listresources.ts:290-311 | The series has seven points, oldest first and ending today. In each point, `type1 + type2 == total` and `type1 == floor(0.6 * total)`. |
| ListResources.StorageReport | src/controller/listresources.ts:236-280 | Reference definition, no contract. The response fields from the bucket totals, the two series, the volume count, used estimate, size and type entries. |
| ListResources.StorageOutcome | src/controller/listresources.ts:203-283 | Reference definition, no contract. The bucket listing error, else the first object-listing error, else the volume error, else `StorageReport`. |
| ListResources.GetListOfAllStorage | src/controller/listresources.ts:203-286 | The handler answers `Respond` of the storage outcome. The first error, from the bucket listing, an object listing or the volume listing, is handled by `handleAWSError`. |
| ValidateCreds.ValidateCredentials | src/middleware/validatecreds.ts:3-12 | Reference definition, no contract. 400 with the fixed message unless all three credential fields are truthy, else `next()`. `ValidateCredentialsIff` characterises it. |
| ValidateCreds.ValidateCredentialsIff | src/middleware/validatecreds.ts:3-12 | A request reaches `next` exactly when `accessKeyId`, `secretAccessKey` and `region` are all truthy. Otherwise it is answered 400 "Missing required AWS credentials". |
| ValidateCreds.ValidateCostRecommendationInput | src/middleware/validatecreds.ts:36-74 | Reference definition, no contract. The fourteen rejection conditions in source order: 400 with the schema text if any holds, else `next()`. |
| ValidateCreds.RecommendationInputIff | src/middleware/validatecreds.ts:36-74 | The recommendation input passes exactly when every field satisfies its rule in the documented schema. Otherwise it is answered 400 with the schema text. |
| ValidateCreds.ConformingInputAccepted | src/middleware/validatecreds.ts:52-66 | A body whose twelve fields each satisfy their schema rule fails none of the fourteen rejection conditions. |
| ValidateCreds.AcceptedInputConforms | src/middleware/validatecreds.ts:52-73 | A body that reaches `next()` satisfies every schema rule. |
| ValidateCreds.FieldsValidAccepted | src/middleware/validatecreds.ts:52-66 | The rejection conditions all fail when the machine fields and the plan fields each satisfy their rules one by one. |
| ValidateCreds.AcceptedFieldsValid | src/middleware/validatecreds.ts:52-73 | An accepted body has every machine field and every plan field valid. |
| ValidateCreds.AcceptedRecommendationInput | src/middleware/validatecreds.ts:52-66 | An accepted body has `storage.type` in {SSD, HDD}, a numeric `storage.size_GB`, `OS` in {Linux, Windows}, `budget_limit` null or a number, and the allowed `preferred_cloud` and `billing_model`. |

## Left out

- SDK calls and network: every AWS call is a parameter that answers a value or an error. Credentials, client construction and the per-region client are not modelled.
- Concurrency: the `Promise.all` fan-out in ec2.ts is modelled as a sequential map over per-region outcomes. Its result order is the region order, as `Promise.all` guarantees.
- File I/O and JSON: the cache directories are maps from file identity to `Readable(value)` or `Unreadable`. `mkdir`, path joining and normalisation are not modelled. Neither are file names that contain path separators, nor the `__dirname` location. A failed cache write is an optional error parameter.
- The cache file name `<service>_<bucket>.json` is modelled by the triple (owner, service, bucket). This is one-to-one because a timestamp never contains `_`.
- Dates: the 14-day billing period and the ISO dates of the time series are left out. A series point carries its offset in days from today instead of its date.
- Floating point: costs are exact reals, and `parseFloat` of the amount is modelled as its value. `NaN` costs are not modelled, so the `typeof cost === "number"` test always passes.
- `Math.floor(x * 0.7)` and `Math.floor(x * 0.6)` are computed exactly. In binary64, `90 * 0.7` is slightly below 63, so the source can differ by one from the exact floor for some sizes.
- `Object.entries` order: a plain object lists integer-like keys first. The model keeps the first-insertion order for the service map, the region maps and the volume-type map.
- Plain-object keys in the service map, the region maps, the volume-type map and the colour table are modelled as map keys. Only the cost lookup's inherited-member problem is modelled (see Findings).
- Billing groups with fewer than two keys, where the destructured key is `undefined`, are modelled as groups whose missing key is the empty string. The output differs: a missing SERVICE key becomes the object key `"undefined"` in `serviceMap[service]` (src/lib/cost_explorer.ts:177-178), so the source reports a service named "undefined" where the model reports "". A missing RESOURCE_ID gives the record `id: undefined`, which JSON drops, where the model has "".
- The duck-typed `listReservedInstances` probe: `EC2Service` defines no such method, so the reserved count is always 0 and the probe itself is not modelled.
- `getListOfS3Objects`, `getListOfEC2Instances`, `getListOfEC2Volumes` and the other thin handlers in src/controller/listresources.ts: each is a single call wrapped by `Respond`. Only `getCompute` and `getListOfAllStorage` are modelled as handlers.
- src/lib/ebs.ts: its `listVolumes` is a single DescribeVolumes call. It appears in the storage report as the `volumes` parameter.
- src/lib/gemini.ts, src/controller/cost_recomendation.ts, src/lib/encrytion.ts, src/lib/ecs.ts, src/lib/dynamo_db.ts, src/lib/network.ts, src/server.ts and filterOnDemand.js are not part of this model. They are an LLM call, AES-GCM through Node crypto, SDK pass-throughs, Express setup, and a streaming JSON filter with a float threshold.
- Console logging.

## Findings

| source | as written | input that shows it | evidently intended | confidence | as-written member | corrected member |
|---|---|---|---|---|---|---|
| src/lib/s3.ts:101-104 | `costMap[obj.Key ?? ""] ?? 0` on a `{}` literal; the same lookup is at s3.ts:55, ec2.ts:73 and ec2.ts:136. An id that names an inherited `Object.prototype` member yields that member, which is not nullish, so `?? 0` does not apply. Assigning a number to `costMap["__proto__"]` creates no own key. | An object with Key "toString", or a bucket named "constructor", and no cost record for it: `cost` becomes a function. The function is dropped when the listing is serialised. | `cost` is 0 for an id without a cost record. | not executed; follows from JavaScript property lookup on an object literal | CostAttachment.PrototypeKeyCounterexample | CostAttachment.CostForIsRecordOrZero |
