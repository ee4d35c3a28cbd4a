# RDS primary-with-replica provisioning, modelled in Dafny

This project models the artisan command `aws:rds:create-with-replica`
(`RDSCreateWithReplicaCommand`). The command provisions an Amazon RDS primary
instance and a read replica, in the same region or in another region. When no
DB subnet group is named, it finds one or creates one. It lists the region's
subnet groups and lets the operator pick one. Failing that, it picks a VPC and
builds a group from one subnet in each availability zone. Across regions it
also creates KMS keys when none were given. It names the source by ARN and
region, and it resolves a subnet group in the replica region.

Modules:

- `Wrappers`: the `Option` type.
- `Php`: the PHP behaviour the command relies on. This covers truthiness and
  `empty()`, ASCII `strtolower`, single-character `str_replace` and `time()`
  rendered as decimal digits. It also covers string-keyed arrays built by
  assignment, where the first assignment fixes the key order and the last
  value wins.
- `Inventory`: the answers of the describe calls, and the four projections
  `getDbSubnetGroups`, `getDefaultVpc`, `getAllVpcs` and `getSubnetsForVpc`. A
  call that throws is caught and reads as an empty list or null.
- `SubnetGroup`: `createDbSubnetGroup`. This covers the two guards, the
  generated name, grouping the subnets by zone (a loop) and picking the first
  subnet of each zone (a loop).
- `Resolver`: `getOrCreateDbSubnetGroup` as a method. It is proved equal to the
  function `Resolve`, and lemmas cover every branch.
- `Planner`: `handle` as a method (`Provision`). It is proved equal to the
  function `Plan`, which returns the exit code, the primary and replica
  argument maps and the ordered list of provider actions. Lemmas state what the
  command promises about those.

Inputs stand in for what the command reads from outside:

- A `RegionInventory` holds one region's describe answers, the clock reading
  and whether the provider accepts `createDBSubnetGroup`.
- A `Cloud` holds both inventories, the key ids `createKey` returns and the
  primary's ARN.
- The interactive `select` prompt is an oracle of type `Prompt -> string`.
  `ChoosesOption` says the oracle answers with one of the prompt's keys.

Regions are labels only. `getAwsConfig` in `app/Console/Commands/BaseAwsCommand.php:28`
takes no region and always reads the configured one. So the PHP command sends
every call to that region, whatever its region options say. The model keeps
the primary and replica inventories apart, as the command's structure and
comments intend. The comparison `replicaRegion !== primaryRegion`, which picks
the branch, is modelled as written.

## Model

All source paths are in `app/Console/Commands/RDSCreateWithReplicaCommand.php`
unless stated otherwise.

| member | source | states |
|---|---|---|
| Php.StrToLower | app/Console/Commands/RDSCreateWithReplicaCommand.php:435 | The result has the input's length and no upper-case ASCII letter. Other characters are kept, and each upper-case letter becomes its lower-case form. |
| Php.StrReplace | app/Console/Commands/RDSCreateWithReplicaCommand.php:435 | Every occurrence of the searched character becomes the replacement, and no other character changes. The searched character then no longer occurs. |
| Php.ParseDecimalString | app/Console/Commands/RDSCreateWithReplicaCommand.php:435 | The decimal rendering of the `time()` reading is all digits and reads back as the same number. |
| Php.AssignLastWins | app/Console/Commands/RDSCreateWithReplicaCommand.php:505 | In an array built by keyed assignment, a key's value is the value of its last assignment. |
| Php.DedupFirstAppearance | app/Console/Commands/RDSCreateWithReplicaCommand.php:498-506 | The keys of an array built by assignment keep the order in which each key first appeared. |
| Php.DedupHead | app/Console/Commands/RDSCreateWithReplicaCommand.php:511 | The first key of an array built from a non-empty list is the first element assigned (`array_key_first`). |
| Inventory.Items | app/Console/Commands/RDSCreateWithReplicaCommand.php:306-308 | A call that throws gives the empty list. A response without the list field also gives the empty list. |
| Inventory.DbSubnetGroups | app/Console/Commands/RDSCreateWithReplicaCommand.php:302-328 | One group per listed group, in order, with the same name. A missing description or VPC id reads as "". Each group's subnets keep their order and ids, and a missing zone reads as "". A thrown call gives no groups. |
| Inventory.DefaultVpc | app/Console/Commands/RDSCreateWithReplicaCommand.php:333-361 | A VPC is returned exactly when the default-VPC listing is non-empty, and it is the first one listed. |
| Inventory.TagMap | app/Console/Commands/RDSCreateWithReplicaCommand.php:379 | The tag map has exactly the keys of the tag list. |
| Inventory.TagMapLastWins | app/Console/Commands/RDSCreateWithReplicaCommand.php:379 | A repeated tag key maps to the value of its last occurrence. |
| Inventory.AllVpcs | app/Console/Commands/RDSCreateWithReplicaCommand.php:366-387 | One VPC per listed VPC, in order, with its id. It is default exactly when the provider flagged it true. A missing CIDR block reads as "", and its tags become the `TagMap` of its tag list. |
| Inventory.SubnetsForVpc | app/Console/Commands/RDSCreateWithReplicaCommand.php:392-420 | One subnet per listed subnet, in order, with its id. A missing zone or CIDR block reads as "". |
| SubnetGroup.Zones | app/Console/Commands/RDSCreateWithReplicaCommand.php:439-446 | The zones are exactly the zones that occur among the subnets. |
| SubnetGroup.GroupByZone | app/Console/Commands/RDSCreateWithReplicaCommand.php:439-446 | The zone map's keys are the zones in order of first appearance, and every key has an entry. |
| SubnetGroup.GroupByZoneFirst | app/Console/Commands/RDSCreateWithReplicaCommand.php:439-446 | Each zone's list starts with the id of the first subnet listed in that zone. |
| SubnetGroup.GroupSubnetsByZone | app/Console/Commands/RDSCreateWithReplicaCommand.php:439-446 | The grouping loop builds exactly the zone map `GroupByZone` specifies. |
| SubnetGroup.FirstIdOfEachZone | app/Console/Commands/RDSCreateWithReplicaCommand.php:449-452 | The selection loop takes the head of each zone's list, in zone order. |
| SubnetGroup.OnePerZoneAt | app/Console/Commands/RDSCreateWithReplicaCommand.php:449-452 | The j-th selected id is the first subnet of the j-th zone. |
| SubnetGroup.FirstInZoneIsFirst | app/Console/Commands/RDSCreateWithReplicaCommand.php:439-446 | The subnet chosen for a zone is at the first position where that zone occurs. |
| SubnetGroup.OnePerZoneSelects | app/Console/Commands/RDSCreateWithReplicaCommand.php:438-452 | One id is selected per distinct zone, and there are no more ids than subnets. The zones are distinct, every subnet's zone is among them, and each id is the first subnet of its zone. |
| SubnetGroup.OnePerZoneOrder | app/Console/Commands/RDSCreateWithReplicaCommand.php:449-452 | Zones are visited in the order they first appear among the subnets. |
| SubnetGroup.CreateDbSubnetGroup | app/Console/Commands/RDSCreateWithReplicaCommand.php:425-480 | The method's outcome is `CreateOutcome`, the outcome whose guards `CreateOutcomeGuards` states. |
| SubnetGroup.CreateOutcomeGuards | app/Console/Commands/RDSCreateWithReplicaCommand.php:427-479 | Fewer than two subnets give null before anything else. A name comes back exactly when the subnets span two zones and the provider accepts. The request lists one subnet per zone (at least two), under the given name or else the generated one. |
| SubnetGroup.GeneratedNameShape | app/Console/Commands/RDSCreateWithReplicaCommand.php:435 | A generated name starts with "default-", has no spaces and no upper-case ASCII letters, and ends with the clock reading in decimal, which reads back as the clock. |
| Resolver.GroupOptions | app/Console/Commands/RDSCreateWithReplicaCommand.php:498-506 | The group prompt's keys are the distinct group names in order of first appearance. |
| Resolver.VpcOptions | app/Console/Commands/RDSCreateWithReplicaCommand.php:531-544 | The VPC prompt's keys are the distinct VPC ids in order of first appearance. |
| Resolver.BuildGroupOptions | app/Console/Commands/RDSCreateWithReplicaCommand.php:498-506 | The option loop builds exactly `GroupOptions`, keys and labels. |
| Resolver.BuildVpcOptions | app/Console/Commands/RDSCreateWithReplicaCommand.php:531-544 | The option loop builds exactly `VpcOptions`, keys and labels. The same loop serves the branch without a default VPC (lines 579-589) when default marking is off. |
| Resolver.FindVpc | app/Console/Commands/RDSCreateWithReplicaCommand.php:553-561 | A VPC is found exactly when some listed VPC has the id. It is the first such VPC, and it carries that id. |
| Resolver.SearchVpc | app/Console/Commands/RDSCreateWithReplicaCommand.php:598-606 | The search loop with its early exit returns what `FindVpc` specifies. |
| Resolver.GetOrCreateDbSubnetGroup | app/Console/Commands/RDSCreateWithReplicaCommand.php:485-624 | The method returns the name, the prompts shown and the creation attempted, exactly as `Resolve` specifies. The branch lemmas below state what that means. |
| Resolver.SingleGroupWithoutPrompt | app/Console/Commands/RDSCreateWithReplicaCommand.php:489-495 | With exactly one existing group, its name comes back. No prompt is shown and nothing is created. |
| Resolver.SeveralGroupsOnePrompt | app/Console/Commands/RDSCreateWithReplicaCommand.php:497-516 | With several groups, one prompt is shown, with the fixed title. Its keys are the distinct group names, and it starts on the first group. The answer is returned unchanged and names a listed group. |
| Resolver.GroupPromptLabels | app/Console/Commands/RDSCreateWithReplicaCommand.php:499-506 | With distinct names, the group prompt has one option per group, labelled with its name, VPC, subnet count and any description. |
| Resolver.NoNetworkFails | app/Console/Commands/RDSCreateWithReplicaCommand.php:563-570 | With no group, no default VPC and no VPC, the result is null with no prompt. |
| Resolver.OnlyVpcIsDefault | app/Console/Commands/RDSCreateWithReplicaCommand.php:524-528 | When the default VPC is the only VPC, it is used without a prompt. |
| Resolver.OnlyVpcWithoutDefault | app/Console/Commands/RDSCreateWithReplicaCommand.php:572-576 | With no default VPC and exactly one VPC, that VPC is used without a prompt. |
| Resolver.VpcPromptShown | app/Console/Commands/RDSCreateWithReplicaCommand.php:529-550 | When a VPC must be picked, one prompt with the fixed title lists the distinct VPC ids. It starts on the default VPC when there is one (lines 546-550) and on the first VPC otherwise (lines 591-595). |
| Resolver.PickFollowedThrough | app/Console/Commands/RDSCreateWithReplicaCommand.php:546-614 | A picked id is always found among the listed VPCs and that VPC is followed through. With an empty list, nothing is found and the result is null. |
| Resolver.VpcPromptLabels | app/Console/Commands/RDSCreateWithReplicaCommand.php:531-544 | With distinct ids, each VPC's option is its label. " (Default)" follows the id exactly when the VPC is flagged default and the default-VPC branch built the prompt. |
| Resolver.DefaultMarkerOnlyOnDefault | app/Console/Commands/RDSCreateWithReplicaCommand.php:533-536 | A label starts with the id and " (Default)" exactly when marking is on and the VPC is the default one. |
| Resolver.FromVpcOutcome | app/Console/Commands/RDSCreateWithReplicaCommand.php:616-623 | With no subnets in the settled VPC, the result is null and nothing is created. Otherwise a name comes back exactly when the subnets span two zones and the provider accepts. That name is the generated name, and the request lists one subnet per zone. |
| Resolver.ResolvedNameOrigin | app/Console/Commands/RDSCreateWithReplicaCommand.php:485-624 | At most one prompt is shown. A returned name is either a listed group's name, with nothing created, or the name of a group whose creation the provider accepted. |
| Planner.BuildPrimaryArgs | app/Console/Commands/RDSCreateWithReplicaCommand.php:106-155 | Building the primary's arguments step by step yields exactly `PrimaryArgs`. |
| Planner.StartReplicaArgs | app/Console/Commands/RDSCreateWithReplicaCommand.php:175-189 | The replica's starting arguments are exactly `SourceArgs`: identifier and source, then the class when it is truthy. Across regions the source becomes the ARN and the source region is added (lines 197-200). |
| Planner.AddCrossRegionArgs | app/Console/Commands/RDSCreateWithReplicaCommand.php:212-248 | The cross-region additions yield exactly `CrossRegionArgs`: subnet group, key and security groups. |
| Planner.SettlePrimary | app/Console/Commands/RDSCreateWithReplicaCommand.php:76-101 | Settling the primary records the key and lookup steps of `PrimarySetup`. It also returns the key `PrimaryKmsKey` settles and the group name `PrimaryGroupName` settles. |
| Planner.ProvisionReplica | app/Console/Commands/RDSCreateWithReplicaCommand.php:174-296 | The replica half of the command yields exactly `ReplicaPhase`. |
| Planner.Provision | app/Console/Commands/RDSCreateWithReplicaCommand.php:52-297 | The whole command yields exactly `Plan` for the two regions' resolutions. The lemmas below state what that means. |
| Planner.PrimaryGroupRequired | app/Console/Commands/RDSCreateWithReplicaCommand.php:93-101 | Without a truthy group name, given or resolved, the run fails and no instance is created. Otherwise the primary uses that name (line 128). A given truthy name is used as is. |
| Planner.SameRegionReplica | app/Console/Commands/RDSCreateWithReplicaCommand.php:249-261 | In the same region the run succeeds. The replica's source is the identifier, and it has no subnet group, no source region and no key. |
| Planner.CrossRegionReplica | app/Console/Commands/RDSCreateWithReplicaCommand.php:192-213 | Across regions the replica is requested exactly when the replica region resolves a truthy group name. Its source is the ARN, its source region is the primary's region, and its group is the resolved name. |
| Planner.ReplicaGroupRequired | app/Console/Commands/RDSCreateWithReplicaCommand.php:205-211 | Across regions with no resolved replica group, the run fails after creating the primary and requests no replica. |
| Planner.PrimaryEncryption | app/Console/Commands/RDSCreateWithReplicaCommand.php:76-90 | The primary is encrypted with the settled key exactly when that key is truthy (lines 149-155). A given truthy key is kept. In the same region the given key is used unchanged. Across regions a truthy created key (neither "" nor "0") makes the primary encrypted. |
| Planner.ReplicaEncryption | app/Console/Commands/RDSCreateWithReplicaCommand.php:215-236 | The replica is encrypted only across regions, exactly when its settled key is truthy (neither "" nor "0"), and then with that key. A truthy created key makes a cross-region replica encrypted. |
| Planner.SecurityGroups | app/Console/Commands/RDSCreateWithReplicaCommand.php:134-137 | The primary carries the given security groups exactly when the list is non-empty. The replica carries the replica list across regions (lines 240-248) and the primary list in the same region (lines 258-260), each exactly when non-empty. |
| Planner.PrimaryArgumentKeys | app/Console/Commands/RDSCreateWithReplicaCommand.php:106-144 | The primary's map holds only known parameters. It always holds the eight required ones (identifier, class, engine, engine version, master user, password, storage, backup retention) with the requested values. It is publicly accessible exactly when the flag is set (lines 141-144). |
| Planner.ReplicaArgumentKeys | app/Console/Commands/RDSCreateWithReplicaCommand.php:175-189 | The replica's map holds only known parameters, is named identifier + "-replica" and always names its source. It carries the primary's class, with that value, exactly when the class is truthy. It is publicly accessible exactly when the flag is set (lines 265-267). |
| Planner.PrimaryFirst | app/Console/Commands/RDSCreateWithReplicaCommand.php:93-171 | A run without a primary stops after the setup calls. Every run with a primary, failing cross-region runs included, creates the primary and waits for it right after the setup calls. |
| Planner.RunOrder | app/Console/Commands/RDSCreateWithReplicaCommand.php:157-171 | A run succeeds exactly when it requests the replica, and a replica implies a primary. A successful run creates the primary and waits for it right after the setup steps, and ends by creating the replica and waiting for it (lines 281-294). |
| Planner.KeyCreation | app/Console/Commands/RDSCreateWithReplicaCommand.php:76-90 | The number of keys created: one when the replica goes elsewhere and no truthy primary key was given, plus one when a cross-region replica is requested without a truthy replica key (lines 218-228). |
| Planner.KeyRegions | app/Console/Commands/RDSCreateWithReplicaCommand.php:76-90 | The primary's key is created in the primary region exactly when the replica goes elsewhere and no truthy primary key was given. The replica's key is created in the replica region exactly when a cross-region replica is requested without a truthy replica key (lines 218-228). |

## Left out

- Provider calls: the describe calls, `createKey`, `createDBSubnetGroup`,
  `createDBInstance`, `createDBInstanceReadReplica` and `waitUntil` are not
  executed. Their answers are inputs (`RegionInventory`, `Cloud`).
- Uncaught exceptions: `createKey`, `createDBInstance`, `waitUntil` and
  `createDBInstanceReadReplica` are not inside a `try`. An error from them ends
  the PHP command with an exception. The model assumes they succeed.
- `waitUntil` inside `spin` is recorded only as a `WaitAvailable` step. Polling,
  timeouts and the spinner are not modelled.
- Console output is not modelled: `info`, `warn` and `error` messages,
  including the warning that primary security groups do not carry across
  regions (lines 244-248). That warning changes nothing in the arguments, and
  the model keeps that.
- Option parsing (lines 52-67) is not modelled. A `Request` carries the values
  after defaults are applied, and the `(int)` casts of allocated storage and
  backup retention are taken as already-made integers. When the configuration
  has no region, the region options are null; this case is not modelled, and
  regions are strings.
- The prompt's terminal interaction is not modelled; `select` is an oracle.
  The model does not assume the oracle answers with a listed key unless a lemma
  requires `ChoosesOption`.
- `time()` is a `clock` input, a natural number of seconds.
- Argument maps are Dafny `map`s, so the order in which the PHP array's keys
  were inserted is not modelled. Prompt options keep their key order
  (`OrderedMap`).
- The fields of provider responses (`KeyMetadata.KeyId`, `DBInstanceArn`) are
  taken from `Cloud`. A response missing them is not modelled.
- `getAwsConfig` and the rest of `app/Console/Commands/BaseAwsCommand.php` are
  not part of this model, apart from the region point made above.
  `app/Console/Commands/ListKmsKeysCommand.php` is not part of this model.
- Planner.PrimaryEncryption: a key id returned by `createKey` is an input. The
  lemma promises encryption across regions only when that id is truthy
  (neither "" nor "0"), since the model cannot know that the provider never
  returns such an id.
- Planner.ReplicaEncryption: for the same reason, a cross-region replica is
  promised encryption only when the key id `createKey` returns in the replica
  region is truthy (neither "" nor "0").
