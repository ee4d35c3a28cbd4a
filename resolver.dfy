/**
 * `getOrCreateDbSubnetGroup`: settle on a DB subnet group for one region.
 * An only existing group is used as is; among several the operator picks
 * one; with none, a VPC is settled on (the default VPC when it is the only
 * one, the only VPC, or the operator's pick) and a group is created from its
 * subnets. The result is a group name or null.
 */
module Resolver {
  import opened Wrappers
  import opened Php
  import opened Inventory
  import opened SubnetGroup

  const GroupPromptLabel := "Multiple DB subnet groups found. Please select one:"
  const VpcPromptLabel := "Multiple VPCs found. Please select one to create a DB subnet group:"
  const DefaultMarker := " (Default)"

  /** One `select` prompt: its title, its options (key to label, in display order) and the key it starts on. */
  datatype Prompt = Prompt(title: string, options: OrderedMap<string>, default: string)

  /** The operator answers a prompt with one of its option keys whenever it has any. */
  ghost predicate ChoosesOption(select: Prompt -> string) {
    forall p: Prompt :: p.options.keys != [] ==> select(p) in p.options.keys
  }

  /** What the describe calls of one region report, and how the create call and the clock answer, during a run. */
  datatype RegionInventory = RegionInventory(
    subnetGroups: Response<RawSubnetGroup>,
    defaultVpcs: Response<RawVpc>,
    vpcs: Response<RawVpc>,
    subnetsByVpc: map<string, Response<RawSubnet>>,
    clock: nat,
    createAccepted: bool)

  /** The answer of `describeSubnets` filtered on one VPC; a VPC the map does not mention has no subnets. */
  function SubnetsResponse(inv: RegionInventory, vpcId: string): Response<RawSubnet> {
    if vpcId in inv.subnetsByVpc then inv.subnetsByVpc[vpcId] else Returned(Some([]))
  }

  /** The name returned (or null), the prompts shown, and the subnet-group creation attempted, if any. */
  datatype Resolution = Resolution(name: Option<string>, prompts: seq<Prompt>, creation: Option<Creation>)

  function GroupLabel(g: SubnetGroupInfo): string {
    var text := g.name + " (VPC: " + g.vpcId + ", " + DecimalString(|g.subnets|) + " subnets)";
    if IsEmpty(g.description) then text else text + " - " + g.description
  }

  /** The option label of a VPC; only the prompt of the default-VPC branch marks default VPCs. */
  function VpcLabel(v: Vpc, markDefault: bool): string {
    v.vpcId
    + (if markDefault && v.isDefault then DefaultMarker else "")
    + (if IsEmpty(v.cidrBlock) then "" else " - " + v.cidrBlock)
    + (if "Name" in v.tags then " - " + v.tags["Name"] else "")
  }

  function GroupNames(groups: seq<SubnetGroupInfo>): (names: seq<string>)
    ensures |names| == |groups|
    ensures forall i :: 0 <= i < |groups| ==> names[i] == groups[i].name
  {
    seq(|groups|, i requires 0 <= i < |groups| => groups[i].name)
  }

  function VpcIds(vpcs: seq<Vpc>): (ids: seq<string>)
    ensures |ids| == |vpcs|
    ensures forall i :: 0 <= i < |vpcs| ==> ids[i] == vpcs[i].vpcId
  {
    seq(|vpcs|, i requires 0 <= i < |vpcs| => vpcs[i].vpcId)
  }

  function GroupPairs(groups: seq<SubnetGroupInfo>): seq<(string, string)> {
    seq(|groups|, i requires 0 <= i < |groups| => (groups[i].name, GroupLabel(groups[i])))
  }

  function VpcPairs(vpcs: seq<Vpc>, markDefault: bool): seq<(string, string)> {
    seq(|vpcs|, i requires 0 <= i < |vpcs| => (vpcs[i].vpcId, VpcLabel(vpcs[i], markDefault)))
  }

  /** The options of the group prompt: keyed by group name, in listing order of first appearance. */
  function GroupOptions(groups: seq<SubnetGroupInfo>): (options: OrderedMap<string>)
    ensures options.keys == Dedup(GroupNames(groups))
  {
    assert Keys(GroupPairs(groups)) == GroupNames(groups);
    Assign(GroupPairs(groups))
  }

  /** The options of a VPC prompt: keyed by VPC id, in listing order of first appearance. */
  function VpcOptions(vpcs: seq<Vpc>, markDefault: bool): (options: OrderedMap<string>)
    ensures options.keys == Dedup(VpcIds(vpcs))
  {
    assert Keys(VpcPairs(vpcs, markDefault)) == VpcIds(vpcs);
    Assign(VpcPairs(vpcs, markDefault))
  }

  /** The loop that fills `$options` for the group prompt. */
  method BuildGroupOptions(groups: seq<SubnetGroupInfo>) returns (options: OrderedMap<string>)
    ensures options == GroupOptions(groups)
  {
    options := OrderedMap([], map[]);
    var i := 0;
    while i < |groups|
      invariant 0 <= i <= |groups|
      invariant options == Assign(GroupPairs(groups)[..i])
    {
      var group := groups[i];
      AssignSnoc(GroupPairs(groups), i);
      assert GroupPairs(groups)[i] == (group.name, GroupLabel(group));
      options := options.Put(group.name, GroupLabel(group));
      i := i + 1;
    }
    assert GroupPairs(groups)[..i] == GroupPairs(groups);
  }

  /** The loop that fills `$options` for a VPC prompt. */
  method BuildVpcOptions(vpcs: seq<Vpc>, markDefault: bool) returns (options: OrderedMap<string>)
    ensures options == VpcOptions(vpcs, markDefault)
  {
    options := OrderedMap([], map[]);
    var i := 0;
    while i < |vpcs|
      invariant 0 <= i <= |vpcs|
      invariant options == Assign(VpcPairs(vpcs, markDefault)[..i])
    {
      var vpc := vpcs[i];
      AssignSnoc(VpcPairs(vpcs, markDefault), i);
      assert VpcPairs(vpcs, markDefault)[i] == (vpc.vpcId, VpcLabel(vpc, markDefault));
      options := options.Put(vpc.vpcId, VpcLabel(vpc, markDefault));
      i := i + 1;
    }
    assert VpcPairs(vpcs, markDefault)[..i] == VpcPairs(vpcs, markDefault);
  }

  /** The first VPC listed with id `id`, as the pair the command keeps, or null. */
  function FindVpc(vpcs: seq<Vpc>, id: string): (found: Option<VpcRef>)
    ensures found.Some? <==> exists i :: 0 <= i < |vpcs| && vpcs[i].vpcId == id
    ensures found.Some? ==> found.value.vpcId == id
    ensures found.Some? ==> exists i :: 0 <= i < |vpcs| && found.value == VpcRef(vpcs[i].vpcId, vpcs[i].cidrBlock)
                                        && forall j :: 0 <= j < i ==> vpcs[j].vpcId != id
  {
    var ids := VpcIds(vpcs);
    if id in ids then
      var k := FirstIndex(ids, id);
      assert forall j :: 0 <= j < k ==> ids[..k][j] == vpcs[j].vpcId;
      Some(VpcRef(vpcs[k].vpcId, vpcs[k].cidrBlock))
    else
      assert forall i :: 0 <= i < |vpcs| ==> ids[i] == vpcs[i].vpcId;
      None
  }

  /** The `foreach` over `$allVpcs` that stops at the first VPC with the selected id. */
  method SearchVpc(vpcs: seq<Vpc>, selectedId: string) returns (selected: Option<VpcRef>)
    ensures selected == FindVpc(vpcs, selectedId)
  {
    selected := None;
    var i := 0;
    while i < |vpcs|
      invariant 0 <= i <= |vpcs|
      invariant selectedId !in VpcIds(vpcs)[..i]
    {
      if vpcs[i].vpcId == selectedId {
        assert VpcIds(vpcs)[i] == selectedId;
        FirstIndexUnique(VpcIds(vpcs), selectedId, i);
        selected := Some(VpcRef(vpcs[i].vpcId, vpcs[i].cidrBlock));
        break;
      }
      assert VpcIds(vpcs)[..i + 1] == VpcIds(vpcs)[..i] + [vpcs[i].vpcId];
      i := i + 1;
    }
    assert i == |vpcs| ==> VpcIds(vpcs)[..i] == VpcIds(vpcs);
  }

  /** The end of the source: list the settled VPC's subnets and create a group from them. */
  function FromVpc(inv: RegionInventory, vpc: VpcRef, prompts: seq<Prompt>): Resolution {
    var subnets := SubnetsForVpc(SubnetsResponse(inv, vpc.vpcId));
    if subnets == [] then Resolution(None, prompts, None)
    else
      var creation := CreateOutcome(vpc.vpcId, subnets, None, inv.clock, inv.createAccepted);
      Resolution(creation.Name(), prompts, Some(creation))
  }

  /** The VPC the operator picked at prompt `p`, followed through to the end. */
  function FromPick(inv: RegionInventory, vpcs: seq<Vpc>, p: Prompt, select: Prompt -> string): Resolution {
    var picked := FindVpc(vpcs, select(p));
    if picked.None? then Resolution(None, [p], None) else FromVpc(inv, picked.value, [p])
  }

  /** The prompt over several groups; it starts on the first key of its options. */
  function GroupPrompt(groups: seq<SubnetGroupInfo>): Prompt
    requires groups != []
  {
    DedupHead(GroupNames(groups));
    var options := GroupOptions(groups);
    Prompt(GroupPromptLabel, options, options.keys[0])
  }

  /**
   * The prompt over the VPCs: in the default-VPC branch it marks default VPCs
   * and starts on the default VPC's id; otherwise it starts on its first key.
   */
  function VpcPrompt(allVpcs: seq<Vpc>, defaultVpc: Option<VpcRef>): Prompt
    requires defaultVpc.Some? || allVpcs != []
  {
    if defaultVpc.Some? then Prompt(VpcPromptLabel, VpcOptions(allVpcs, true), defaultVpc.value.vpcId)
    else
      DedupHead(VpcIds(allVpcs));
      var options := VpcOptions(allVpcs, false);
      Prompt(VpcPromptLabel, options, options.keys[0])
  }

  /** What `getOrCreateDbSubnetGroup` does in a region, given the operator's answers. */
  function Resolve(inv: RegionInventory, select: Prompt -> string): Resolution {
    var groups := DbSubnetGroups(inv.subnetGroups);
    if groups != [] then
      if |groups| == 1 then Resolution(Some(groups[0].name), [], None)
      else
        var p := GroupPrompt(groups);
        Resolution(Some(select(p)), [p], None)
    else
      var defaultVpc := DefaultVpc(inv.defaultVpcs);
      var allVpcs := AllVpcs(inv.vpcs);
      if defaultVpc.Some? then
        if |allVpcs| == 1 then FromVpc(inv, defaultVpc.value, [])
        else FromPick(inv, allVpcs, VpcPrompt(allVpcs, defaultVpc), select)
      else if allVpcs == [] then Resolution(None, [], None)
      else if |allVpcs| == 1 then FromVpc(inv, VpcRef(allVpcs[0].vpcId, allVpcs[0].cidrBlock), [])
      else FromPick(inv, allVpcs, VpcPrompt(allVpcs, defaultVpc), select)
  }

  /** `getOrCreateDbSubnetGroup`. */
  method GetOrCreateDbSubnetGroup(inv: RegionInventory, select: Prompt -> string) returns (res: Resolution)
    ensures res == Resolve(inv, select)
  {
    var subnetGroups := DbSubnetGroups(inv.subnetGroups);
    if subnetGroups != [] {
      if |subnetGroups| == 1 {
        return Resolution(Some(subnetGroups[0].name), [], None);
      }
      var options := BuildGroupOptions(subnetGroups);
      DedupHead(GroupNames(subnetGroups));
      var prompt := Prompt(GroupPromptLabel, options, options.keys[0]);
      var selectedName := select(prompt);
      return Resolution(Some(selectedName), [prompt], None);
    }

    var defaultVpc := DefaultVpc(inv.defaultVpcs);
    var selectedVpc: Option<VpcRef> := None;
    var prompts: seq<Prompt> := [];
    if defaultVpc.Some? {
      var allVpcs := AllVpcs(inv.vpcs);
      if |allVpcs| == 1 {
        selectedVpc := defaultVpc;
      } else {
        var options := BuildVpcOptions(allVpcs, true);
        var prompt := Prompt(VpcPromptLabel, options, defaultVpc.value.vpcId);
        prompts := [prompt];
        selectedVpc := SearchVpc(allVpcs, select(prompt));
      }
    } else {
      var allVpcs := AllVpcs(inv.vpcs);
      if allVpcs == [] {
        return Resolution(None, [], None);
      }
      if |allVpcs| == 1 {
        selectedVpc := Some(VpcRef(allVpcs[0].vpcId, allVpcs[0].cidrBlock));
      } else {
        var options := BuildVpcOptions(allVpcs, false);
        DedupHead(VpcIds(allVpcs));
        var prompt := Prompt(VpcPromptLabel, options, options.keys[0]);
        prompts := [prompt];
        selectedVpc := SearchVpc(allVpcs, select(prompt));
      }
    }

    if selectedVpc.None? {
      return Resolution(None, prompts, None);
    }

    var subnets := SubnetsForVpc(SubnetsResponse(inv, selectedVpc.value.vpcId));
    if subnets == [] {
      return Resolution(None, prompts, None);
    }
    var creation := CreateDbSubnetGroup(selectedVpc.value.vpcId, subnets, None, inv.clock, inv.createAccepted);
    res := Resolution(creation.Name(), prompts, Some(creation));
  }

  /** Exactly one existing group: its name comes back, with no prompt and nothing created. */
  lemma SingleGroupWithoutPrompt(inv: RegionInventory, select: Prompt -> string)
    requires |DbSubnetGroups(inv.subnetGroups)| == 1
    ensures Resolve(inv, select) == Resolution(Some(DbSubnetGroups(inv.subnetGroups)[0].name), [], None)
  {
  }

  /**
   * Several existing groups: a single prompt keyed by group name, one option
   * per distinct name, starting on the first listed group; the answer is
   * returned and it names a listed group.
   */
  lemma SeveralGroupsOnePrompt(inv: RegionInventory, select: Prompt -> string)
    requires |DbSubnetGroups(inv.subnetGroups)| > 1
    ensures var groups := DbSubnetGroups(inv.subnetGroups);
            var p := GroupPrompt(groups);
            Resolve(inv, select) == Resolution(Some(select(p)), [p], None)
            && p.title == GroupPromptLabel
            && p.options.keys == Dedup(GroupNames(groups))
            && p.default == groups[0].name
            && (ChoosesOption(select) ==> select(p) in GroupNames(groups))
  {
    var groups := DbSubnetGroups(inv.subnetGroups);
    var p := GroupPrompt(groups);
    assert Resolve(inv, select) == Resolution(Some(select(p)), [p], None);
    DedupHead(GroupNames(groups));
    if ChoosesOption(select) {
      assert select(p) in p.options.keys;
      InDedup(GroupNames(groups), select(p));
    }
  }

  /** When group names are distinct the group prompt has one option per group, labelled by `GroupLabel`. */
  lemma GroupPromptLabels(groups: seq<SubnetGroupInfo>, i: nat)
    requires NoDuplicates(GroupNames(groups)) && i < |groups|
    ensures var options := GroupPrompt(groups).options;
            |options.keys| == |groups|
            && groups[i].name in options.entries
            && options.entries[groups[i].name] == GroupLabel(groups[i])
  {
    var names := GroupNames(groups);
    DedupOfDistinct(names);
    var pairs := GroupPairs(groups);
    forall j | i < j < |pairs| ensures pairs[j].0 != pairs[i].0 {
      assert names[j] != names[i];
    }
    AssignLastWins(pairs, i);
  }

  /** No group, no default VPC and no VPC at all: null, with no prompt. */
  lemma NoNetworkFails(inv: RegionInventory, select: Prompt -> string)
    requires DbSubnetGroups(inv.subnetGroups) == []
    requires DefaultVpc(inv.defaultVpcs) == None && AllVpcs(inv.vpcs) == []
    ensures Resolve(inv, select) == Resolution(None, [], None)
  {
  }

  /** No group, and the default VPC is the only VPC: it is used without a prompt. */
  lemma OnlyVpcIsDefault(inv: RegionInventory, select: Prompt -> string)
    requires DbSubnetGroups(inv.subnetGroups) == []
    requires DefaultVpc(inv.defaultVpcs).Some? && |AllVpcs(inv.vpcs)| == 1
    ensures Resolve(inv, select) == FromVpc(inv, DefaultVpc(inv.defaultVpcs).value, [])
  {
  }

  /** No group, no default VPC and exactly one VPC: that VPC is used without a prompt. */
  lemma OnlyVpcWithoutDefault(inv: RegionInventory, select: Prompt -> string)
    requires DbSubnetGroups(inv.subnetGroups) == []
    requires DefaultVpc(inv.defaultVpcs).None? && |AllVpcs(inv.vpcs)| == 1
    ensures var v := AllVpcs(inv.vpcs)[0];
            Resolve(inv, select) == FromVpc(inv, VpcRef(v.vpcId, v.cidrBlock), [])
  {
  }

  /**
   * No group, and a VPC must be picked (a default VPC among a number of VPCs
   * other than one, or no default among several): a single prompt over the
   * VPCs keyed by id, starting on the default VPC if there is one and on the
   * first VPC otherwise; the pick is then followed through.
   */
  lemma VpcPromptShown(inv: RegionInventory, select: Prompt -> string)
    requires DbSubnetGroups(inv.subnetGroups) == []
    requires var dv := DefaultVpc(inv.defaultVpcs);
             var all := AllVpcs(inv.vpcs);
             (dv.Some? && |all| != 1) || (dv.None? && |all| > 1)
    ensures var dv := DefaultVpc(inv.defaultVpcs);
            var all := AllVpcs(inv.vpcs);
            var p := VpcPrompt(all, dv);
            Resolve(inv, select) == FromPick(inv, all, p, select)
            && p.title == VpcPromptLabel
            && p.options == VpcOptions(all, dv.Some?)
            && p.options.keys == Dedup(VpcIds(all))
            && p.default == (if dv.Some? then dv.value.vpcId else all[0].vpcId)
  {
    var dv := DefaultVpc(inv.defaultVpcs);
    var all := AllVpcs(inv.vpcs);
    if dv.None? {
      DedupHead(VpcIds(all));
    }
  }

  /**
   * Following the operator's pick at a VPC prompt: the picked VPC is always
   * found among the listed VPCs and followed through; with no VPC listed
   * nothing can be found and the result is null.
   */
  lemma PickFollowedThrough(inv: RegionInventory, vpcs: seq<Vpc>, p: Prompt, select: Prompt -> string)
    requires p.options.keys == Dedup(VpcIds(vpcs))
    ensures var r := FromPick(inv, vpcs, p, select);
            r.prompts == [p]
            && (vpcs == [] ==> r.name == None && r.creation == None)
            && (ChoosesOption(select) && vpcs != [] ==>
                  FindVpc(vpcs, select(p)).Some? && FindVpc(vpcs, select(p)).value.vpcId == select(p)
                  && r == FromVpc(inv, FindVpc(vpcs, select(p)).value, [p]))
  {
    if ChoosesOption(select) && vpcs != [] {
      assert select(p) in p.options.keys;
      InDedup(VpcIds(vpcs), select(p));
      var k :| 0 <= k < |vpcs| && VpcIds(vpcs)[k] == select(p);
      assert vpcs[k].vpcId == select(p);
    }
  }

  /**
   * In a VPC prompt over distinct ids, each VPC's option is labelled by
   * `VpcLabel`, and " (Default)" follows its id exactly when the prompt is the
   * default-VPC branch's and the VPC is flagged default.
   */
  lemma VpcPromptLabels(vpcs: seq<Vpc>, markDefault: bool, i: nat)
    requires NoDuplicates(VpcIds(vpcs)) && i < |vpcs|
    ensures var options := VpcOptions(vpcs, markDefault);
            vpcs[i].vpcId in options.entries
            && options.entries[vpcs[i].vpcId] == VpcLabel(vpcs[i], markDefault)
            && (vpcs[i].vpcId + DefaultMarker <= options.entries[vpcs[i].vpcId] <==> markDefault && vpcs[i].isDefault)
  {
    var pairs := VpcPairs(vpcs, markDefault);
    forall j | i < j < |pairs| ensures pairs[j].0 != pairs[i].0 {
      assert VpcIds(vpcs)[j] != VpcIds(vpcs)[i];
    }
    AssignLastWins(pairs, i);
    DefaultMarkerOnlyOnDefault(vpcs[i], markDefault);
  }

  /** A VPC label begins with the id followed by " (Default)" exactly when default VPCs are marked and this one is. */
  lemma DefaultMarkerOnlyOnDefault(v: Vpc, markDefault: bool)
    ensures v.vpcId + DefaultMarker <= VpcLabel(v, markDefault) <==> markDefault && v.isDefault
  {
    var cidr := if IsEmpty(v.cidrBlock) then "" else " - " + v.cidrBlock;
    var tag := if "Name" in v.tags then " - " + v.tags["Name"] else "";
    var text := VpcLabel(v, markDefault);
    var n := |v.vpcId|;
    if markDefault && v.isDefault {
      assert text == v.vpcId + DefaultMarker + cidr + tag;
      assert text[..n + |DefaultMarker|] == v.vpcId + DefaultMarker;
    } else {
      assert text == v.vpcId + (cidr + tag);
      if |text| >= n + |DefaultMarker| {
        assert text[n + 1] == (cidr + tag)[1] == '-';
        assert (v.vpcId + DefaultMarker)[n + 1] == '(';
      }
    }
  }

  /**
   * Following a settled VPC through: no subnets give null with nothing
   * created; otherwise a group is requested from one subnet per zone, and a
   * name comes back exactly when the subnets span two zones and the provider
   * accepts, in which case it is the generated name.
   */
  lemma FromVpcOutcome(inv: RegionInventory, vpc: VpcRef, prompts: seq<Prompt>)
    ensures var r := FromVpc(inv, vpc, prompts);
            var subnets := SubnetsForVpc(SubnetsResponse(inv, vpc.vpcId));
            r.prompts == prompts
            && (subnets == [] ==> r.name == None && r.creation == None)
            && (r.name.Some? <==> |Zones(subnets)| >= 2 && inv.createAccepted)
            && (r.name.Some? ==> r.creation.Some? && r.creation.value.Submitted?
                                 && r.name.value == r.creation.value.request.name == GeneratedName(vpc.vpcId, inv.clock)
                                 && r.creation.value.request.subnetIds == OnePerZone(subnets))
  {
    var subnets := SubnetsForVpc(SubnetsResponse(inv, vpc.vpcId));
    CreateOutcomeGuards(vpc.vpcId, subnets, None, inv.clock, inv.createAccepted);
  }

  /**
   * Whatever the inventory, at most one prompt is shown, and a returned name
   * is either a listed group's name (nothing created) or the name of a group
   * whose creation the provider accepted.
   */
  lemma ResolvedNameOrigin(inv: RegionInventory, select: Prompt -> string)
    requires ChoosesOption(select)
    ensures var r := Resolve(inv, select);
            var groups := DbSubnetGroups(inv.subnetGroups);
            |r.prompts| <= 1
            && (r.name.Some? ==>
                  (groups != [] && r.name.value in GroupNames(groups) && r.creation == None)
                  || (groups == [] && r.creation.Some? && r.creation.value.Submitted? && r.creation.value.accepted
                      && r.name.value == r.creation.value.request.name))
  {
    var groups := DbSubnetGroups(inv.subnetGroups);
    if |groups| > 1 {
      SeveralGroupsOnePrompt(inv, select);
    } else if groups == [] {
      var dv := DefaultVpc(inv.defaultVpcs);
      var all := AllVpcs(inv.vpcs);
      if (dv.Some? && |all| != 1) || (dv.None? && |all| > 1) {
        VpcPromptShown(inv, select);
        PickFollowedThrough(inv, all, VpcPrompt(all, dv), select);
        if all != [] {
          FromVpcOutcome(inv, FindVpc(all, select(VpcPrompt(all, dv))).value, [VpcPrompt(all, dv)]);
        }
      } else if dv.Some? {
        FromVpcOutcome(inv, dv.value, []);
      } else if |all| == 1 {
        FromVpcOutcome(inv, VpcRef(all[0].vpcId, all[0].cidrBlock), []);
      }
    }
  }
}
