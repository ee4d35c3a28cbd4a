/**
 * What the command reads about one region's network: the answers of the
 * describe calls and the projections `getDbSubnetGroups`, `getDefaultVpc`,
 * `getAllVpcs` and `getSubnetsForVpc` make of them. A describe call that
 * throws is caught by the projection, which then reports nothing.
 */
module Inventory {
  import opened Wrappers
  import opened Php

  /** The answer of one describe call: it threw, or it returned a result whose list field may be absent. */
  datatype Response<T> = Threw(message: string) | Returned(items: Option<seq<T>>)

  /** `$result['X'] ?? []` inside a `try`, with `[]` from the `catch`. */
  function Items<T>(r: Response<T>): (s: seq<T>)
    ensures r.Threw? ==> s == []
    ensures r.Returned? && r.items.None? ==> s == []
    ensures r.Returned? && r.items.Some? ==> s == r.items.value
  {
    match r
    case Threw(_) => []
    case Returned(items) => items.GetOr([])
  }

  // Records as the provider returns them; absent optional fields are None.

  datatype RawGroupSubnet = RawGroupSubnet(identifier: string, zoneName: Option<string>)

  datatype RawSubnetGroup = RawSubnetGroup(
    name: string,
    description: Option<string>,
    vpcId: Option<string>,
    subnets: Option<seq<RawGroupSubnet>>)

  datatype RawTag = RawTag(key: string, value: string)

  datatype RawVpc = RawVpc(vpcId: string, cidrBlock: Option<string>, isDefault: Option<bool>, tags: Option<seq<RawTag>>)

  datatype RawSubnet = RawSubnet(subnetId: string, zone: Option<string>, cidrBlock: Option<string>)

  // Records as the command uses them.

  datatype GroupSubnet = GroupSubnet(id: string, az: string)

  datatype SubnetGroupInfo = SubnetGroupInfo(name: string, description: string, vpcId: string, subnets: seq<GroupSubnet>)

  datatype Vpc = Vpc(vpcId: string, cidrBlock: string, isDefault: bool, tags: map<string, string>)

  /** The two fields the command keeps of a VPC it has settled on. */
  datatype VpcRef = VpcRef(vpcId: string, cidrBlock: string)

  datatype Subnet = Subnet(id: string, az: string, cidr: string)

  function ProjectGroup(g: RawSubnetGroup): SubnetGroupInfo {
    var raws := g.subnets.GetOr([]);
    SubnetGroupInfo(
      g.name,
      g.description.GetOr(""),
      g.vpcId.GetOr(""),
      seq(|raws|, i requires 0 <= i < |raws| => GroupSubnet(raws[i].identifier, raws[i].zoneName.GetOr(""))))
  }

  /**
   * `getDbSubnetGroups`: one entry per listed group, in listing order, keeping
   * each group's name; a missing description or VPC id reads as "", and each
   * subnet keeps its id, a missing zone reading as "".
   */
  function DbSubnetGroups(r: Response<RawSubnetGroup>): (groups: seq<SubnetGroupInfo>)
    ensures |groups| == |Items(r)|
    ensures forall i :: 0 <= i < |groups| ==> groups[i].name == Items(r)[i].name
    ensures forall i :: 0 <= i < |groups| ==>
              groups[i].description == Items(r)[i].description.GetOr("")
              && groups[i].vpcId == Items(r)[i].vpcId.GetOr("")
    ensures forall i :: 0 <= i < |groups| ==> |groups[i].subnets| == |Items(r)[i].subnets.GetOr([])|
    ensures forall i, j :: 0 <= i < |groups| && 0 <= j < |groups[i].subnets| ==>
              groups[i].subnets[j].id == Items(r)[i].subnets.GetOr([])[j].identifier
              && groups[i].subnets[j].az == Items(r)[i].subnets.GetOr([])[j].zoneName.GetOr("")
  {
    var raws := Items(r);
    seq(|raws|, i requires 0 <= i < |raws| => ProjectGroup(raws[i]))
  }

  /** `getDefaultVpc`: the first VPC of the `isDefault` describe call, or null when it lists none or throws. */
  function DefaultVpc(r: Response<RawVpc>): (v: Option<VpcRef>)
    ensures v.Some? <==> Items(r) != []
    ensures v.Some? ==> v.value.vpcId == Items(r)[0].vpcId
  {
    var vpcs := Items(r);
    if vpcs == [] then None else Some(VpcRef(vpcs[0].vpcId, vpcs[0].cidrBlock.GetOr("")))
  }

  /**
   * `array_column($tags, 'Value', 'Key')`: a map from each tag key to its value;
   * when a key repeats, the later tag wins.
   */
  function TagMap(tags: seq<RawTag>): (m: map<string, string>)
    ensures forall k :: k in m <==> exists i :: 0 <= i < |tags| && tags[i].key == k
    decreases |tags|
  {
    if tags == [] then map[]
    else
      var front := tags[..|tags| - 1];
      var last := tags[|tags| - 1];
      assert forall i :: 0 <= i < |front| ==> front[i] == tags[i];
      TagMap(front)[last.key := last.value]
  }

  /** The value `TagMap` gives a key is that of the last tag with that key. */
  lemma {:induction false} TagMapLastWins(tags: seq<RawTag>, i: nat)
    requires i < |tags|
    requires forall j :: i < j < |tags| ==> tags[j].key != tags[i].key
    ensures tags[i].key in TagMap(tags) && TagMap(tags)[tags[i].key] == tags[i].value
    decreases |tags|
  {
    if i < |tags| - 1 {
      TagMapLastWins(tags[..|tags| - 1], i);
    }
  }

  function ProjectVpc(v: RawVpc): Vpc {
    Vpc(v.vpcId, v.cidrBlock.GetOr(""), v.isDefault.GetOr(false), TagMap(v.tags.GetOr([])))
  }

  /**
   * `getAllVpcs`: one entry per listed VPC, in listing order, with its id and
   * default flag; a missing CIDR block reads as "", and the tags become a map.
   */
  function AllVpcs(r: Response<RawVpc>): (vpcs: seq<Vpc>)
    ensures |vpcs| == |Items(r)|
    ensures forall i :: 0 <= i < |vpcs| ==> vpcs[i].vpcId == Items(r)[i].vpcId
    ensures forall i :: 0 <= i < |vpcs| ==> vpcs[i].isDefault == (Items(r)[i].isDefault == Some(true))
    ensures forall i :: 0 <= i < |vpcs| ==>
              vpcs[i].cidrBlock == Items(r)[i].cidrBlock.GetOr("")
              && vpcs[i].tags == TagMap(Items(r)[i].tags.GetOr([]))
  {
    var raws := Items(r);
    seq(|raws|, i requires 0 <= i < |raws| => ProjectVpc(raws[i]))
  }

  /** `getSubnetsForVpc`: one entry per listed subnet, in listing order; a missing zone reads as "". */
  function SubnetsForVpc(r: Response<RawSubnet>): (subnets: seq<Subnet>)
    ensures |subnets| == |Items(r)|
    ensures forall i :: 0 <= i < |subnets| ==> subnets[i].id == Items(r)[i].subnetId
    ensures forall i :: 0 <= i < |subnets| ==> subnets[i].az == Items(r)[i].zone.GetOr("")
    ensures forall i :: 0 <= i < |subnets| ==> subnets[i].cidr == Items(r)[i].cidrBlock.GetOr("")
  {
    var raws := Items(r);
    seq(|raws|, i requires 0 <= i < |raws| => Subnet(raws[i].subnetId, raws[i].zone.GetOr(""), raws[i].cidrBlock.GetOr("")))
  }
}
