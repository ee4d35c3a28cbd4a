/**
 * `handle`: the whole provisioning run. From the resolved command-line
 * options it creates a KMS key for the primary when the replica goes to
 * another region, settles the primary's DB subnet group, creates the primary
 * instance and waits for it, then builds the read replica's arguments (same
 * region or cross region), settling the replica region's subnet group and key
 * when needed, and creates the replica and waits for it.
 *
 * The provider's answers (new key ids, the primary's ARN, each region's
 * inventory) are inputs; the calls made are recorded as steps in order.
 */
module Planner {
  import opened Wrappers
  import opened Php
  import opened Resolver

  /** A value of an argument map passed to the provider. */
  datatype Value = Text(text: string) | Number(number: int) | Flag(flag: bool) | TextList(items: seq<string>)

  /** The provider's parameter names that the command sets. */
  datatype Param =
    | DBInstanceIdentifier | DBInstanceClass | Engine | EngineVersion | MasterUsername | MasterUserPassword
    | AllocatedStorage | BackupRetentionPeriod | DBSubnetGroupName | VpcSecurityGroupIds | PubliclyAccessible
    | StorageEncrypted | KmsKeyId | SourceDBInstanceIdentifier | SourceRegion

  /** The argument map of a create call. */
  type Args = map<Param, Value>

  /** The command-line options once their fallbacks have been applied. */
  datatype Request = Request(
    engine: string,
    engineVersion: string,
    dbInstanceIdentifier: string,
    masterUsername: string,
    masterUserPassword: string,
    dbInstanceClass: string,
    allocatedStorage: int,
    backupRetentionPeriod: int,
    primaryRegion: string,
    replicaRegion: string,
    dbSubnetGroupName: Option<string>,
    vpcSecurityGroupIds: seq<string>,
    replicaVpcSecurityGroupIds: seq<string>,
    publiclyAccessible: bool,
    kmsKeyId: Option<string>,
    replicaKmsKeyId: Option<string>)

  /** How the provider answers during a run: the two regions' inventories, the ids of keys it creates, the primary's ARN. */
  datatype Cloud = Cloud(
    primary: RegionInventory,
    replica: RegionInventory,
    primaryKeyId: string,
    replicaKeyId: string,
    primaryArn: string)

  /** A call the run makes on the provider, in the region it names. */
  datatype Step =
    | CreateKey(region: string, description: string)
    | ResolveGroup(region: string, resolution: Resolution)
    | CreateInstance(region: string, args: Args)
    | WaitAvailable(region: string, identifier: string)
    | CreateReadReplica(region: string, args: Args)

  datatype ExitCode = Success | Failure

  /** The outcome of a run: its exit code, the argument maps it submitted and every call it made. */
  datatype Run = Run(exit: ExitCode, primary: Option<Args>, replica: Option<Args>, steps: seq<Step>)

  const PrimaryKeyDescription := "KMS key for the primary RDS instance (required for cross-region replica)"
  const ReplicaKeyDescription := "KMS key for the replica instance"
  const ReplicaSuffix := "-replica"

  /** The keys each argument map may hold. */
  const PrimaryKeys: set<Param> := {
    DBInstanceIdentifier, DBInstanceClass, Engine, EngineVersion, MasterUsername,
    MasterUserPassword, AllocatedStorage, BackupRetentionPeriod, DBSubnetGroupName,
    VpcSecurityGroupIds, PubliclyAccessible, StorageEncrypted, KmsKeyId}
  const ReplicaKeys: set<Param> := {
    DBInstanceIdentifier, SourceDBInstanceIdentifier, DBInstanceClass, SourceRegion,
    DBSubnetGroupName, StorageEncrypted, KmsKeyId, VpcSecurityGroupIds, PubliclyAccessible}

  /** The strict comparison `$replicaRegion !== $primaryRegion`. */
  predicate CrossRegion(req: Request) {
    req.replicaRegion != req.primaryRegion
  }

  function ReplicaIdentifier(req: Request): string {
    req.dbInstanceIdentifier + ReplicaSuffix
  }

  /** `$kmsKeyId` once the run has settled it: a key created in the primary region replaces a missing one for a cross-region replica. */
  function PrimaryKmsKey(req: Request, cloud: Cloud): Option<string> {
    if CrossRegion(req) && !Truthy(req.kmsKeyId) then Some(cloud.primaryKeyId) else req.kmsKeyId
  }

  /** `$replicaKmsKeyId` once the cross-region branch has settled it. */
  function ReplicaKmsKey(req: Request, cloud: Cloud): Option<string> {
    if !Truthy(req.replicaKmsKeyId) then Some(cloud.replicaKeyId) else req.replicaKmsKeyId
  }

  /** `if (present) $args[key] = v;`: an optional argument assigned under its guard. */
  function SetIf(args: Args, present: bool, key: Param, v: Value): Args {
    if present then args[key := v] else args
  }

  /** The eight arguments the primary always carries. */
  function RequiredArgs(req: Request): Args {
    map[
      DBInstanceIdentifier := Text(req.dbInstanceIdentifier),
      DBInstanceClass := Text(req.dbInstanceClass),
      Engine := Text(req.engine),
      EngineVersion := Text(req.engineVersion),
      MasterUsername := Text(req.masterUsername),
      MasterUserPassword := Text(req.masterUserPassword),
      AllocatedStorage := Number(req.allocatedStorage),
      BackupRetentionPeriod := Number(req.backupRetentionPeriod)]
  }

  /** The encryption pair, assigned together when the key id is truthy. */
  function WithKey(args: Args, kmsKeyId: Option<string>): Args {
    var encrypted := SetIf(args, Truthy(kmsKeyId), StorageEncrypted, Flag(true));
    SetIf(encrypted, Truthy(kmsKeyId), KmsKeyId, Text(kmsKeyId.GetOr("")))
  }

  /** The primary's argument map: the required arguments and each optional one whose guard holds. */
  function PrimaryArgs(req: Request, kmsKeyId: Option<string>, groupName: Option<string>): Args {
    var withGroup := SetIf(RequiredArgs(req), Truthy(groupName), DBSubnetGroupName, Text(groupName.GetOr("")));
    var withSecurity := SetIf(withGroup, |req.vpcSecurityGroupIds| > 0, VpcSecurityGroupIds, TextList(req.vpcSecurityGroupIds));
    var withPublic := SetIf(withSecurity, req.publiclyAccessible, PubliclyAccessible, Flag(true));
    WithKey(withPublic, kmsKeyId)
  }

  /**
   * The start of the replica's map: its identifier and source, the instance
   * class when it is truthy, and across regions the source named by ARN and
   * region instead.
   */
  function SourceArgs(req: Request, arn: string): Args {
    var base := map[DBInstanceIdentifier := Text(ReplicaIdentifier(req)), SourceDBInstanceIdentifier := Text(req.dbInstanceIdentifier)];
    var withClass := SetIf(base, Truthy(Some(req.dbInstanceClass)), DBInstanceClass, Text(req.dbInstanceClass));
    var withArn := SetIf(withClass, CrossRegion(req), SourceDBInstanceIdentifier, Text(arn));
    SetIf(withArn, CrossRegion(req), SourceRegion, Text(req.primaryRegion))
  }

  /** What a cross-region replica adds: the replica region's subnet group, the encryption pair and the replica region's security groups. */
  function CrossRegionArgs(req: Request, before: Args, groupName: string, kmsKeyId: Option<string>): Args {
    var withKey := WithKey(before[DBSubnetGroupName := Text(groupName)], kmsKeyId);
    SetIf(withKey, |req.replicaVpcSecurityGroupIds| > 0, VpcSecurityGroupIds, TextList(req.replicaVpcSecurityGroupIds))
  }

  /** What a same-region replica adds: the primary's security groups. */
  function SameRegionArgs(req: Request, before: Args): Args {
    SetIf(before, |req.vpcSecurityGroupIds| > 0, VpcSecurityGroupIds, TextList(req.vpcSecurityGroupIds))
  }

  /** The replica's argument map; `groupName` and `kmsKeyId` only matter across regions. */
  function ReplicaArgs(req: Request, arn: string, groupName: string, kmsKeyId: Option<string>): Args {
    var started := SourceArgs(req, arn);
    var placed := if CrossRegion(req) then CrossRegionArgs(req, started, groupName, kmsKeyId) else SameRegionArgs(req, started);
    SetIf(placed, req.publiclyAccessible, PubliclyAccessible, Flag(true))
  }

  /** The last two calls of a successful run: create the replica, then wait for it. */
  function Finish(req: Request, replica: Args): seq<Step> {
    [CreateReadReplica(req.replicaRegion, replica), WaitAvailable(req.replicaRegion, ReplicaIdentifier(req))]
  }

  /** The calls made before the primary is created: the primary region's key, then the subnet group lookup when no name was given. */
  function PrimarySetup(req: Request, primaryResolution: Resolution): seq<Step> {
    (if CrossRegion(req) && !Truthy(req.kmsKeyId) then [CreateKey(req.primaryRegion, PrimaryKeyDescription)] else [])
    + (if Truthy(req.dbSubnetGroupName) then [] else [ResolveGroup(req.primaryRegion, primaryResolution)])
  }

  /** `$dbSubnetGroupName` once settled: the given name, or else the one the primary region resolves to. */
  function PrimaryGroupName(req: Request, primaryResolution: Resolution): Option<string> {
    if Truthy(req.dbSubnetGroupName) then req.dbSubnetGroupName else primaryResolution.name
  }

  /**
   * What a run does, given the request, the provider's answers and what the
   * subnet group lookup yields in the primary and in the replica region (each
   * consulted only when the run asks for it).
   */
  function Plan(req: Request, cloud: Cloud, primaryResolution: Resolution, replicaResolution: Resolution): Run {
    var setup := PrimarySetup(req, primaryResolution);
    var groupName := PrimaryGroupName(req, primaryResolution);
    if !Truthy(groupName) then Run(Failure, None, None, setup)
    else
      var primary := PrimaryArgs(req, PrimaryKmsKey(req, cloud), groupName);
      var created := setup + [CreateInstance(req.primaryRegion, primary), WaitAvailable(req.primaryRegion, req.dbInstanceIdentifier)];
      ReplicaPhase(req, cloud, replicaResolution, primary, created)
  }

  /** The run once the primary exists: `created` are the calls made so far. */
  function ReplicaPhase(req: Request, cloud: Cloud, replicaResolution: Resolution, primary: Args, created: seq<Step>): Run {
    if !CrossRegion(req) then
      var replica := ReplicaArgs(req, cloud.primaryArn, "", None);
      Run(Success, Some(primary), Some(replica), created + Finish(req, replica))
    else
      var resolved := created + [ResolveGroup(req.replicaRegion, replicaResolution)];
      if !Truthy(replicaResolution.name) then Run(Failure, Some(primary), None, resolved)
      else
        var replicaKeySteps := if !Truthy(req.replicaKmsKeyId) then [CreateKey(req.replicaRegion, ReplicaKeyDescription)] else [];
        var replica := ReplicaArgs(req, cloud.primaryArn, replicaResolution.name.value, ReplicaKmsKey(req, cloud));
        Run(Success, Some(primary), Some(replica), resolved + replicaKeySteps + Finish(req, replica))
  }

  /** The primary's map, built as the source builds it: the required arguments, then each optional one under its guard. */
  method BuildPrimaryArgs(req: Request, kmsKeyId: Option<string>, dbSubnetGroupName: Option<string>) returns (args: Args)
    ensures args == PrimaryArgs(req, kmsKeyId, dbSubnetGroupName)
  {
    args := RequiredArgs(req);
    if Truthy(dbSubnetGroupName) {
      args := args[DBSubnetGroupName := Text(dbSubnetGroupName.value)];
    }
    if |req.vpcSecurityGroupIds| > 0 {
      args := args[VpcSecurityGroupIds := TextList(req.vpcSecurityGroupIds)];
    }
    if req.publiclyAccessible {
      args := args[PubliclyAccessible := Flag(true)];
    }
    if Truthy(kmsKeyId) {
      args := args[StorageEncrypted := Flag(true)];
      args := args[KmsKeyId := Text(kmsKeyId.value)];
    }
  }

  /** The start of the replica's map, as the source builds it before the region branch and at the head of its cross-region arm. */
  method StartReplicaArgs(req: Request, arn: string) returns (args: Args)
    ensures args == SourceArgs(req, arn)
  {
    args := map[DBInstanceIdentifier := Text(ReplicaIdentifier(req)), SourceDBInstanceIdentifier := Text(req.dbInstanceIdentifier)];
    if Truthy(Some(req.dbInstanceClass)) {
      args := args[DBInstanceClass := Text(req.dbInstanceClass)];
    }
    if CrossRegion(req) {
      args := args[SourceDBInstanceIdentifier := Text(arn)];
      args := args[SourceRegion := Text(req.primaryRegion)];
    }
  }

  /** The cross-region arm once the replica region's subnet group and key are settled. */
  method AddCrossRegionArgs(req: Request, before: Args, groupName: string, replicaKmsKeyId: Option<string>) returns (args: Args)
    ensures args == CrossRegionArgs(req, before, groupName, replicaKmsKeyId)
  {
    args := before[DBSubnetGroupName := Text(groupName)];
    if Truthy(replicaKmsKeyId) {
      args := args[StorageEncrypted := Flag(true)];
      args := args[KmsKeyId := Text(replicaKmsKeyId.value)];
    }
    if |req.replicaVpcSecurityGroupIds| > 0 {
      args := args[VpcSecurityGroupIds := TextList(req.replicaVpcSecurityGroupIds)];
    }
  }

  /**
   * The first part of `handle`: a key for the primary when the replica goes
   * to another region and none was given, then the primary's subnet group
   * when none was given.
   */
  method SettlePrimary(req: Request, cloud: Cloud, primarySelect: Prompt -> string)
    returns (steps: seq<Step>, kmsKeyId: Option<string>, dbSubnetGroupName: Option<string>)
    ensures steps == PrimarySetup(req, Resolve(cloud.primary, primarySelect))
    ensures kmsKeyId == PrimaryKmsKey(req, cloud)
    ensures dbSubnetGroupName == PrimaryGroupName(req, Resolve(cloud.primary, primarySelect))
  {
    steps := [];
    kmsKeyId := req.kmsKeyId;
    if CrossRegion(req) && !Truthy(kmsKeyId) {
      steps := steps + [CreateKey(req.primaryRegion, PrimaryKeyDescription)];
      kmsKeyId := Some(cloud.primaryKeyId);
    }
    dbSubnetGroupName := req.dbSubnetGroupName;
    if !Truthy(dbSubnetGroupName) {
      var resolution := GetOrCreateDbSubnetGroup(cloud.primary, primarySelect);
      steps := steps + [ResolveGroup(req.primaryRegion, resolution)];
      dbSubnetGroupName := resolution.name;
    }
  }

  /**
   * `handle`, step by step: each argument map is filled in place and each
   * provider call appended to the steps. The subnet group lookups are those
   * of `GetOrCreateDbSubnetGroup` in each region.
   */
  method Provision(req: Request, cloud: Cloud, primarySelect: Prompt -> string, replicaSelect: Prompt -> string)
    returns (run: Run)
    ensures run == Plan(req, cloud, Resolve(cloud.primary, primarySelect), Resolve(cloud.replica, replicaSelect))
  {
    ghost var primaryResolution := Resolve(cloud.primary, primarySelect);
    ghost var replicaResolution := Resolve(cloud.replica, replicaSelect);
    var steps, kmsKeyId, dbSubnetGroupName := SettlePrimary(req, cloud, primarySelect);
    if !Truthy(dbSubnetGroupName) {
      run := Run(Failure, None, None, steps);
      return;
    }
    var primaryInstanceArgs := BuildPrimaryArgs(req, kmsKeyId, dbSubnetGroupName);
    ghost var setup := steps;
    steps := steps + [CreateInstance(req.primaryRegion, primaryInstanceArgs)];
    steps := steps + [WaitAvailable(req.primaryRegion, req.dbInstanceIdentifier)];
    assert steps == setup + [CreateInstance(req.primaryRegion, primaryInstanceArgs), WaitAvailable(req.primaryRegion, req.dbInstanceIdentifier)];
    assert Plan(req, cloud, primaryResolution, replicaResolution) == ReplicaPhase(req, cloud, replicaResolution, primaryInstanceArgs, steps);
    run := ProvisionReplica(req, cloud, replicaSelect, primaryInstanceArgs, steps);
  }

  /** The second half of `handle`: the replica's map, the replica region's subnet group and key, and the replica's creation. */
  method ProvisionReplica(req: Request, cloud: Cloud, replicaSelect: Prompt -> string, primaryInstanceArgs: Args, created: seq<Step>)
    returns (run: Run)
    ensures run == ReplicaPhase(req, cloud, Resolve(cloud.replica, replicaSelect), primaryInstanceArgs, created)
  {
    ghost var replicaResolution := Resolve(cloud.replica, replicaSelect);
    var steps := created;
    var replicaInstanceArgs := StartReplicaArgs(req, cloud.primaryArn);
    ghost var started := replicaInstanceArgs;
    if CrossRegion(req) {
      var resolution := GetOrCreateDbSubnetGroup(cloud.replica, replicaSelect);
      steps := steps + [ResolveGroup(req.replicaRegion, resolution)];
      if !Truthy(resolution.name) {
        run := Run(Failure, Some(primaryInstanceArgs), None, steps);
        return;
      }
      ghost var resolved := steps;
      var replicaKmsKeyId := req.replicaKmsKeyId;
      if !Truthy(replicaKmsKeyId) {
        steps := steps + [CreateKey(req.replicaRegion, ReplicaKeyDescription)];
        replicaKmsKeyId := Some(cloud.replicaKeyId);
      }
      assert replicaKmsKeyId == ReplicaKmsKey(req, cloud);
      assert steps == resolved + if !Truthy(req.replicaKmsKeyId) then [CreateKey(req.replicaRegion, ReplicaKeyDescription)] else [];
      replicaInstanceArgs := AddCrossRegionArgs(req, replicaInstanceArgs, resolution.name.value, replicaKmsKeyId);
    } else {
      if |req.vpcSecurityGroupIds| > 0 {
        replicaInstanceArgs := replicaInstanceArgs[VpcSecurityGroupIds := TextList(req.vpcSecurityGroupIds)];
      }
      assert replicaInstanceArgs == SameRegionArgs(req, started);
    }
    if req.publiclyAccessible {
      replicaInstanceArgs := replicaInstanceArgs[PubliclyAccessible := Flag(true)];
    }
    ghost var before := steps;
    steps := steps + [CreateReadReplica(req.replicaRegion, replicaInstanceArgs)];
    steps := steps + [WaitAvailable(req.replicaRegion, ReplicaIdentifier(req))];
    assert steps == before + Finish(req, replicaInstanceArgs);
    run := Run(Success, Some(primaryInstanceArgs), Some(replicaInstanceArgs), steps);
  }

  /** The number of keys a sequence of calls creates. */
  function KeysCreated(steps: seq<Step>): nat {
    if steps == [] then 0 else (if steps[0].CreateKey? then 1 else 0) + KeysCreated(steps[1..])
  }

  lemma {:induction false} KeysCreatedConcat(a: seq<Step>, b: seq<Step>)
    ensures KeysCreated(a + b) == KeysCreated(a) + KeysCreated(b)
    decreases |a|
  {
    if a == [] {
      assert a + b == b;
    } else {
      assert (a + b)[1..] == a[1..] + b;
      KeysCreatedConcat(a[1..], b);
    }
  }

  lemma {:induction false} KeysCreatedNone(steps: seq<Step>)
    requires forall i :: 0 <= i < |steps| ==> !steps[i].CreateKey?
    ensures KeysCreated(steps) == 0
    decreases |steps|
  {
    if steps != [] {
      KeysCreatedNone(steps[1..]);
    }
  }

  /** The facts every run shares, read off the two phases. */
  lemma PlanShape(req: Request, cloud: Cloud, primaryResolution: Resolution, replicaResolution: Resolution)
    ensures var r := Plan(req, cloud, primaryResolution, replicaResolution);
            var setup := PrimarySetup(req, primaryResolution);
            (r.primary.None? <==> !Truthy(PrimaryGroupName(req, primaryResolution)))
            && (r.primary.None? ==> r.exit == Failure && r.replica.None? && r.steps == setup)
            && (r.primary.Some? ==>
                  r.primary.value == PrimaryArgs(req, PrimaryKmsKey(req, cloud), PrimaryGroupName(req, primaryResolution))
                  && r == ReplicaPhase(req, cloud, replicaResolution, r.primary.value,
                       setup + [CreateInstance(req.primaryRegion, r.primary.value), WaitAvailable(req.primaryRegion, req.dbInstanceIdentifier)]))
  {
  }

  /**
   * The primary needs a subnet group: without a truthy name, given or
   * resolved, the run fails having created no instance. A given name is used
   * as is and no lookup is made in the primary region.
   */
  lemma PrimaryGroupRequired(req: Request, cloud: Cloud, primaryResolution: Resolution, replicaResolution: Resolution)
    ensures var r := Plan(req, cloud, primaryResolution, replicaResolution);
            var name := PrimaryGroupName(req, primaryResolution);
            (r.primary.Some? <==> Truthy(name))
            && (r.primary.None? ==>
                  r.exit == Failure && r.replica.None?
                  && (forall i :: 0 <= i < |r.steps| ==> !r.steps[i].CreateInstance? && !r.steps[i].CreateReadReplica?))
            && (r.primary.Some? ==> DBSubnetGroupName in r.primary.value && r.primary.value[DBSubnetGroupName] == Text(name.value))
            && (Truthy(req.dbSubnetGroupName) ==> name == req.dbSubnetGroupName)
  {
    PlanShape(req, cloud, primaryResolution, replicaResolution);
  }

  /**
   * A same-region replica names its source by identifier and carries neither
   * a subnet group nor a source region nor a key: it is created whenever the
   * primary is.
   */
  lemma SameRegionReplica(req: Request, cloud: Cloud, primaryResolution: Resolution, replicaResolution: Resolution)
    requires !CrossRegion(req)
    ensures var r := Plan(req, cloud, primaryResolution, replicaResolution);
            r.primary.Some? ==>
              r.exit == Success && r.replica.Some?
              && r.replica.value[SourceDBInstanceIdentifier] == Text(req.dbInstanceIdentifier)
              && DBSubnetGroupName !in r.replica.value
              && SourceRegion !in r.replica.value
              && KmsKeyId !in r.replica.value && StorageEncrypted !in r.replica.value
  {
    var r := Plan(req, cloud, primaryResolution, replicaResolution);
    PlanShape(req, cloud, primaryResolution, replicaResolution);
    if r.primary.Some? {
      var started := SourceArgs(req, cloud.primaryArn);
      assert started[SourceDBInstanceIdentifier] == Text(req.dbInstanceIdentifier);
      assert DBSubnetGroupName !in started && SourceRegion !in started && KmsKeyId !in started && StorageEncrypted !in started;
      assert r.replica.value == SetIf(SameRegionArgs(req, started), req.publiclyAccessible, PubliclyAccessible, Flag(true));
    }
  }

  /**
   * A cross-region replica names its source by the primary's ARN and region
   * and uses the subnet group resolved in the replica region; it is created
   * exactly when that resolution yields a truthy name.
   */
  lemma CrossRegionReplica(req: Request, cloud: Cloud, primaryResolution: Resolution, replicaResolution: Resolution)
    requires CrossRegion(req)
    ensures var r := Plan(req, cloud, primaryResolution, replicaResolution);
            var resolved := replicaResolution.name;
            r.primary.Some? ==>
              (r.replica.Some? <==> Truthy(resolved))
              && (r.replica.Some? ==>
                    r.exit == Success
                    && r.replica.value[SourceDBInstanceIdentifier] == Text(cloud.primaryArn)
                    && r.replica.value[SourceRegion] == Text(req.primaryRegion)
                    && r.replica.value[DBSubnetGroupName] == Text(resolved.value))
  {
    var r := Plan(req, cloud, primaryResolution, replicaResolution);
    PlanShape(req, cloud, primaryResolution, replicaResolution);
    if r.replica.Some? {
      var started := SourceArgs(req, cloud.primaryArn);
      assert started[SourceDBInstanceIdentifier] == Text(cloud.primaryArn);
      assert started[SourceRegion] == Text(req.primaryRegion);
      var placed := CrossRegionArgs(req, started, replicaResolution.name.value, ReplicaKmsKey(req, cloud));
      assert placed[SourceDBInstanceIdentifier] == Text(cloud.primaryArn);
      assert placed[DBSubnetGroupName] == Text(replicaResolution.name.value);
      assert r.replica.value == SetIf(placed, req.publiclyAccessible, PubliclyAccessible, Flag(true));
    }
  }

  /**
   * Across regions the replica needs a subnet group in its own region: when
   * none is resolved the run fails after the primary was created, and no
   * replica is requested.
   */
  lemma ReplicaGroupRequired(req: Request, cloud: Cloud, primaryResolution: Resolution, replicaResolution: Resolution)
    requires CrossRegion(req)
    ensures var r := Plan(req, cloud, primaryResolution, replicaResolution);
            r.primary.Some? && !Truthy(replicaResolution.name) ==>
              r.exit == Failure && r.replica.None?
              && (exists i :: 0 <= i < |r.steps| && r.steps[i] == CreateInstance(req.primaryRegion, r.primary.value))
              && (forall i :: 0 <= i < |r.steps| ==> !r.steps[i].CreateReadReplica?)
  {
    var r := Plan(req, cloud, primaryResolution, replicaResolution);
    PlanShape(req, cloud, primaryResolution, replicaResolution);
    if r.primary.Some? && !Truthy(replicaResolution.name) {
      var setup := PrimarySetup(req, primaryResolution);
      assert r.steps == setup + [CreateInstance(req.primaryRegion, r.primary.value), WaitAvailable(req.primaryRegion, req.dbInstanceIdentifier)]
                       + [ResolveGroup(req.replicaRegion, replicaResolution)];
      assert r.steps[|setup|] == CreateInstance(req.primaryRegion, r.primary.value);
      forall i | 0 <= i < |r.steps| ensures !r.steps[i].CreateReadReplica? {
        if i < |setup| {
          assert r.steps[i] == setup[i];
        }
      }
    }
  }

  /**
   * The primary is encrypted exactly when its settled key id is truthy, and
   * then with that key. Across regions a key is always settled when none was
   * given, since one is created (whose id the provider returns non-empty).
   */
  lemma PrimaryEncryption(req: Request, cloud: Cloud, primaryResolution: Resolution, replicaResolution: Resolution)
    ensures var r := Plan(req, cloud, primaryResolution, replicaResolution);
            var key := PrimaryKmsKey(req, cloud);
            (r.primary.Some? ==>
               (KmsKeyId in r.primary.value <==> Truthy(key))
               && (StorageEncrypted in r.primary.value <==> Truthy(key))
               && (Truthy(key) ==> r.primary.value[KmsKeyId] == Text(key.value) && r.primary.value[StorageEncrypted] == Flag(true)))
            && (Truthy(req.kmsKeyId) ==> key == req.kmsKeyId)
            && (!CrossRegion(req) ==> key == req.kmsKeyId)
            && (CrossRegion(req) && Truthy(Some(cloud.primaryKeyId)) ==> Truthy(key))
  {
    PlanShape(req, cloud, primaryResolution, replicaResolution);
  }

  /**
   * A replica is encrypted only across regions, exactly when its settled key
   * id is truthy, and then with that key; a key is created for it when none
   * was given.
   */
  lemma ReplicaEncryption(req: Request, cloud: Cloud, primaryResolution: Resolution, replicaResolution: Resolution)
    ensures var r := Plan(req, cloud, primaryResolution, replicaResolution);
            var key := ReplicaKmsKey(req, cloud);
            r.replica.Some? ==>
              (KmsKeyId in r.replica.value <==> CrossRegion(req) && Truthy(key))
              && (StorageEncrypted in r.replica.value <==> CrossRegion(req) && Truthy(key))
              && (CrossRegion(req) && Truthy(key) ==>
                    r.replica.value[KmsKeyId] == Text(key.value) && r.replica.value[StorageEncrypted] == Flag(true))
              && (CrossRegion(req) && Truthy(Some(cloud.replicaKeyId)) ==> KmsKeyId in r.replica.value)
  {
    PlanShape(req, cloud, primaryResolution, replicaResolution);
  }

  /**
   * Security groups: the primary carries the given list when it is non-empty.
   * A same-region replica carries the same list; a cross-region replica
   * carries only the replica list, and nothing when that is empty.
   */
  lemma SecurityGroups(req: Request, cloud: Cloud, primaryResolution: Resolution, replicaResolution: Resolution)
    ensures var r := Plan(req, cloud, primaryResolution, replicaResolution);
            var replicaGroups := if CrossRegion(req) then req.replicaVpcSecurityGroupIds else req.vpcSecurityGroupIds;
            (r.primary.Some? ==>
               (VpcSecurityGroupIds in r.primary.value <==> |req.vpcSecurityGroupIds| > 0)
               && (|req.vpcSecurityGroupIds| > 0 ==> r.primary.value[VpcSecurityGroupIds] == TextList(req.vpcSecurityGroupIds)))
            && (r.replica.Some? ==>
               (VpcSecurityGroupIds in r.replica.value <==> |replicaGroups| > 0)
               && (|replicaGroups| > 0 ==> r.replica.value[VpcSecurityGroupIds] == TextList(replicaGroups)))
  {
    PlanShape(req, cloud, primaryResolution, replicaResolution);
  }

  lemma PrimaryArgsKeys(req: Request, kmsKeyId: Option<string>, groupName: Option<string>)
    ensures var args := PrimaryArgs(req, kmsKeyId, groupName);
            args.Keys <= PrimaryKeys
            && (forall k :: k in RequiredArgs(req) ==> k in args && args[k] == RequiredArgs(req)[k])
  {
  }

  lemma ReplicaArgsKeys(req: Request, arn: string, groupName: string, kmsKeyId: Option<string>)
    ensures ReplicaArgs(req, arn, groupName, kmsKeyId).Keys <= ReplicaKeys
  {
    var started := SourceArgs(req, arn);
    assert started.Keys <= ReplicaKeys;
    if CrossRegion(req) {
      assert CrossRegionArgs(req, started, groupName, kmsKeyId).Keys <= ReplicaKeys;
    }
  }

  /**
   * The primary's map holds only parameters the command knows and always the
   * eight required ones with the requested values, named by the given
   * identifier; it is publicly accessible exactly when the flag is set.
   */
  lemma PrimaryArgumentKeys(req: Request, cloud: Cloud, primaryResolution: Resolution, replicaResolution: Resolution)
    ensures var r := Plan(req, cloud, primaryResolution, replicaResolution);
            r.primary.Some? ==>
              r.primary.value.Keys <= PrimaryKeys
              && (forall k :: k in RequiredArgs(req) ==> k in r.primary.value && r.primary.value[k] == RequiredArgs(req)[k])
              && r.primary.value[DBInstanceIdentifier] == Text(req.dbInstanceIdentifier)
              && (PubliclyAccessible in r.primary.value <==> req.publiclyAccessible)
              && (req.publiclyAccessible ==> r.primary.value[PubliclyAccessible] == Flag(true))
  {
    PlanShape(req, cloud, primaryResolution, replicaResolution);
    PrimaryArgsKeys(req, PrimaryKmsKey(req, cloud), PrimaryGroupName(req, primaryResolution));
  }

  /**
   * The replica's map holds only parameters the command knows; the replica
   * is named after the primary with "-replica", always names its source,
   * carries the primary's instance class when it is truthy, and is publicly accessible
   * exactly when the flag is set.
   */
  lemma ReplicaArgumentKeys(req: Request, cloud: Cloud, primaryResolution: Resolution, replicaResolution: Resolution)
    ensures var r := Plan(req, cloud, primaryResolution, replicaResolution);
            r.replica.Some? ==>
              r.replica.value.Keys <= ReplicaKeys
              && r.replica.value[DBInstanceIdentifier] == Text(req.dbInstanceIdentifier + "-replica")
              && SourceDBInstanceIdentifier in r.replica.value
              && (DBInstanceClass in r.replica.value <==> Truthy(Some(req.dbInstanceClass)))
              && (Truthy(Some(req.dbInstanceClass)) ==> r.replica.value[DBInstanceClass] == Text(req.dbInstanceClass))
              && (PubliclyAccessible in r.replica.value <==> req.publiclyAccessible)
              && (req.publiclyAccessible ==> r.replica.value[PubliclyAccessible] == Flag(true))
  {
    var r := Plan(req, cloud, primaryResolution, replicaResolution);
    PlanShape(req, cloud, primaryResolution, replicaResolution);
    if r.replica.Some? {
      var groupName := if CrossRegion(req) then replicaResolution.name.value else "";
      var key := if CrossRegion(req) then ReplicaKmsKey(req, cloud) else None;
      assert r.replica.value == ReplicaArgs(req, cloud.primaryArn, groupName, key);
      ReplicaArgsKeys(req, cloud.primaryArn, groupName, key);
    }
  }

  /**
   * A run without a primary stops after the setup calls. Every run with a
   * primary, failing cross-region runs included, creates the primary and
   * waits for it right after the setup calls, before anything about the
   * replica.
   */
  lemma PrimaryFirst(req: Request, cloud: Cloud, primaryResolution: Resolution, replicaResolution: Resolution)
    ensures var r := Plan(req, cloud, primaryResolution, replicaResolution);
            var setup := PrimarySetup(req, primaryResolution);
            (r.primary.None? ==> r.steps == setup)
            && (r.primary.Some? ==>
                  |r.steps| >= |setup| + 2
                  && r.steps[..|setup| + 2]
                     == setup + [CreateInstance(req.primaryRegion, r.primary.value), WaitAvailable(req.primaryRegion, req.dbInstanceIdentifier)])
  {
    var r := Plan(req, cloud, primaryResolution, replicaResolution);
    PlanShape(req, cloud, primaryResolution, replicaResolution);
    if r.primary.Some? {
      var setup := PrimarySetup(req, primaryResolution);
      var created := setup + [CreateInstance(req.primaryRegion, r.primary.value), WaitAvailable(req.primaryRegion, req.dbInstanceIdentifier)];
      var rest: seq<Step>;
      if !CrossRegion(req) {
        rest := Finish(req, r.replica.value);
      } else if !Truthy(replicaResolution.name) {
        rest := [ResolveGroup(req.replicaRegion, replicaResolution)];
      } else {
        var keySteps: seq<Step> := if !Truthy(req.replicaKmsKeyId) then [CreateKey(req.replicaRegion, ReplicaKeyDescription)] else [];
        rest := [ResolveGroup(req.replicaRegion, replicaResolution)] + keySteps + Finish(req, r.replica.value);
      }
      assert r.steps == created + rest;
      assert r.steps[..|created|] == created;
    }
  }

  /**
   * A run succeeds exactly when it requests the replica. A successful run
   * creates the primary and waits for it before anything about the replica,
   * and ends by creating the replica and waiting for it.
   */
  lemma RunOrder(req: Request, cloud: Cloud, primaryResolution: Resolution, replicaResolution: Resolution)
    ensures var r := Plan(req, cloud, primaryResolution, replicaResolution);
            var setup := PrimarySetup(req, primaryResolution);
            (r.exit == Success <==> r.replica.Some?)
            && (r.replica.Some? ==> r.primary.Some?)
            && (r.exit == Success ==>
                  |r.steps| >= |setup| + 4
                  && r.steps[..|setup|] == setup
                  && r.steps[|setup|] == CreateInstance(req.primaryRegion, r.primary.value)
                  && r.steps[|setup| + 1] == WaitAvailable(req.primaryRegion, req.dbInstanceIdentifier)
                  && r.steps[|r.steps| - 2] == CreateReadReplica(req.replicaRegion, r.replica.value)
                  && r.steps[|r.steps| - 1] == WaitAvailable(req.replicaRegion, ReplicaIdentifier(req)))
  {
    var r := Plan(req, cloud, primaryResolution, replicaResolution);
    PlanShape(req, cloud, primaryResolution, replicaResolution);
    if r.exit == Success {
      var setup := PrimarySetup(req, primaryResolution);
      var created := setup + [CreateInstance(req.primaryRegion, r.primary.value), WaitAvailable(req.primaryRegion, req.dbInstanceIdentifier)];
      var middle: seq<Step> := if CrossRegion(req) then
          [ResolveGroup(req.replicaRegion, replicaResolution)]
          + (if !Truthy(req.replicaKmsKeyId) then [CreateKey(req.replicaRegion, ReplicaKeyDescription)] else [])
        else [];
      assert r.steps == created + middle + Finish(req, r.replica.value);
      assert r.steps[..|setup|] == setup;
    }
  }

  /**
   * Keys created: one in the primary region when the replica goes elsewhere
   * and no primary key was given, and one in the replica region when a
   * cross-region replica is requested without a key of its own.
   */
  lemma KeyCreation(req: Request, cloud: Cloud, primaryResolution: Resolution, replicaResolution: Resolution)
    ensures var r := Plan(req, cloud, primaryResolution, replicaResolution);
            KeysCreated(r.steps)
              == (if CrossRegion(req) && !Truthy(req.kmsKeyId) then 1 else 0)
               + (if CrossRegion(req) && r.replica.Some? && !Truthy(req.replicaKmsKeyId) then 1 else 0)
  {
    var r := Plan(req, cloud, primaryResolution, replicaResolution);
    PlanShape(req, cloud, primaryResolution, replicaResolution);
    var keySteps: seq<Step> := if CrossRegion(req) && !Truthy(req.kmsKeyId) then [CreateKey(req.primaryRegion, PrimaryKeyDescription)] else [];
    var groupSteps: seq<Step> := if Truthy(req.dbSubnetGroupName) then [] else [ResolveGroup(req.primaryRegion, primaryResolution)];
    var setup := PrimarySetup(req, primaryResolution);
    assert setup == keySteps + groupSteps;
    KeysCreatedConcat(keySteps, groupSteps);
    assert KeysCreated(groupSteps) == 0;
    if r.primary.Some? {
      var both: seq<Step> := [CreateInstance(req.primaryRegion, r.primary.value), WaitAvailable(req.primaryRegion, req.dbInstanceIdentifier)];
      KeysCreatedConcat(setup, both);
      KeysCreatedNone(both);
      var created := setup + both;
      if !CrossRegion(req) {
        KeysCreatedConcat(created, Finish(req, r.replica.value));
        KeysCreatedNone(Finish(req, r.replica.value));
      } else {
        var lookup: seq<Step> := [ResolveGroup(req.replicaRegion, replicaResolution)];
        KeysCreatedConcat(created, lookup);
        assert KeysCreated(lookup) == 0;
        if r.replica.Some? {
          var replicaKeySteps: seq<Step> := if !Truthy(req.replicaKmsKeyId) then [CreateKey(req.replicaRegion, ReplicaKeyDescription)] else [];
          KeysCreatedConcat(created + lookup, replicaKeySteps);
          KeysCreatedConcat(created + lookup + replicaKeySteps, Finish(req, r.replica.value));
          KeysCreatedNone(Finish(req, r.replica.value));
        }
      }
    }
  }

  /**
   * Where the keys are created: the primary's key, in the primary region,
   * exactly when the replica goes elsewhere and no truthy primary key was
   * given; the replica's key, in the replica region, exactly when a
   * cross-region replica is requested without a truthy key of its own.
   */
  lemma KeyRegions(req: Request, cloud: Cloud, primaryResolution: Resolution, replicaResolution: Resolution)
    ensures var r := Plan(req, cloud, primaryResolution, replicaResolution);
            (CreateKey(req.primaryRegion, PrimaryKeyDescription) in r.steps <==> CrossRegion(req) && !Truthy(req.kmsKeyId))
            && (CreateKey(req.replicaRegion, ReplicaKeyDescription) in r.steps <==> CrossRegion(req) && r.replica.Some? && !Truthy(req.replicaKmsKeyId))
  {
    var r := Plan(req, cloud, primaryResolution, replicaResolution);
    PlanShape(req, cloud, primaryResolution, replicaResolution);
    var primaryKey := CreateKey(req.primaryRegion, PrimaryKeyDescription);
    var replicaKey := CreateKey(req.replicaRegion, ReplicaKeyDescription);
    assert |PrimaryKeyDescription| != |ReplicaKeyDescription|;
    var keySteps: seq<Step> := if CrossRegion(req) && !Truthy(req.kmsKeyId) then [primaryKey] else [];
    var groupSteps: seq<Step> := if Truthy(req.dbSubnetGroupName) then [] else [ResolveGroup(req.primaryRegion, primaryResolution)];
    assert PrimarySetup(req, primaryResolution) == keySteps + groupSteps;
    assert primaryKey !in groupSteps && replicaKey !in groupSteps && replicaKey !in keySteps;
    assert primaryKey in keySteps <==> CrossRegion(req) && !Truthy(req.kmsKeyId);
    var rest: seq<Step> := [];
    if r.primary.Some? {
      var both: seq<Step> := [CreateInstance(req.primaryRegion, r.primary.value), WaitAvailable(req.primaryRegion, req.dbInstanceIdentifier)];
      if !CrossRegion(req) {
        rest := both + Finish(req, r.replica.value);
        assert primaryKey !in rest && replicaKey !in rest;
      } else if !Truthy(replicaResolution.name) {
        rest := both + [ResolveGroup(req.replicaRegion, replicaResolution)];
        assert primaryKey !in rest && replicaKey !in rest;
      } else {
        var replicaKeySteps: seq<Step> := if !Truthy(req.replicaKmsKeyId) then [replicaKey] else [];
        var lookup: seq<Step> := both + [ResolveGroup(req.replicaRegion, replicaResolution)];
        assert primaryKey !in lookup && replicaKey !in lookup;
        assert primaryKey !in Finish(req, r.replica.value) && replicaKey !in Finish(req, r.replica.value);
        rest := lookup + replicaKeySteps + Finish(req, r.replica.value);
        assert primaryKey !in rest;
        assert replicaKey in rest <==> !Truthy(req.replicaKmsKeyId);
      }
    }
    assert r.steps == keySteps + groupSteps + rest;
  }
}
