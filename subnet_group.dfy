/**
 * `createDbSubnetGroup`: from the subnets of a VPC, keep the first subnet of
 * each availability zone, in the order the zones first appear, and ask the
 * provider to create a subnet group of them; give up when fewer than two
 * subnets are given or fewer than two zones result.
 */
module SubnetGroup {
  import opened Wrappers
  import opened Php
  import opened Inventory

  const DefaultNamePrefix := "default-"
  const CreatedByTag := map["CreatedBy" := "Laravel RDS Command"]

  /** The `createDBSubnetGroup` request the command sends. */
  datatype CreateRequest = CreateRequest(name: string, description: string, subnetIds: seq<string>, tags: map<string, string>)

  /** How `createDbSubnetGroup` ends: refused locally, or a request sent that the provider accepted or rejected. */
  datatype Creation = TooFewSubnets | TooFewZones | Submitted(request: CreateRequest, accepted: bool) {

    /** The name the source returns, or null. */
    function Name(): Option<string> {
      if Submitted? && accepted then Some(request.name) else None
    }
  }

  function Description(vpcId: string): string {
    "Auto-created DB subnet group for VPC " + vpcId
  }

  /** The VPC id as it appears in a generated name: lower-cased, spaces turned into dashes. */
  function NormalizedVpcId(vpcId: string): string {
    StrReplace(' ', '-', StrToLower(vpcId))
  }

  /** The name given to a group when none is passed; `clock` is the Unix time the command reads. */
  function GeneratedName(vpcId: string, clock: nat): string {
    DefaultNamePrefix + NormalizedVpcId(vpcId) + "-" + DecimalString(clock)
  }

  /** The zone of each subnet, in listing order. */
  function Azs(subnets: seq<Subnet>): (azs: seq<string>)
    ensures |azs| == |subnets|
    ensures forall i :: 0 <= i < |subnets| ==> azs[i] == subnets[i].az
  {
    seq(|subnets|, i requires 0 <= i < |subnets| => subnets[i].az)
  }

  /** The distinct zones of `subnets`, in the order each first appears. */
  function Zones(subnets: seq<Subnet>): (zones: seq<string>)
    ensures forall az :: az in zones <==> az in Azs(subnets)
  {
    var azs := Azs(subnets);
    var d := Dedup(azs);
    assert forall az :: az in d ==> az in azs by {
      forall az | az in d ensures az in azs {
        var i :| 0 <= i < |d| && d[i] == az;
      }
    }
    assert forall az :: az in azs ==> az in d by {
      forall az | az in azs ensures az in d {
        var i :| 0 <= i < |azs| && azs[i] == az;
      }
    }
    d
  }

  /** The subnet listed first in zone `az`. */
  function FirstInZone(subnets: seq<Subnet>, az: string): (s: Subnet)
    requires az in Azs(subnets)
    ensures s in subnets && s.az == az
  {
    subnets[FirstIndex(Azs(subnets), az)]
  }

  /** One turn of the first loop: give the subnet's zone a list if it has none, then append the subnet's id. */
  function AddToZone(m: OrderedMap<seq<string>>, s: Subnet): (r: OrderedMap<seq<string>>)
    ensures r.entries == m.entries[s.az := (if s.az in m.entries then m.entries[s.az] else []) + [s.id]]
    ensures (forall k :: k in m.entries <==> k in m.keys) ==>
              r.keys == if s.az in m.keys then m.keys else m.keys + [s.az]
  {
    var m' := if s.az in m.entries then m else m.Put(s.az, []);
    m'.Put(s.az, m'.entries[s.az] + [s.id])
  }

  /** `$subnetsByAz` after the first loop: its keys are the zones, in order of first appearance. */
  function GroupByZone(subnets: seq<Subnet>): (m: OrderedMap<seq<string>>)
    ensures m.keys == Zones(subnets)
    ensures forall az :: az in m.entries <==> az in m.keys
    decreases |subnets|
  {
    if subnets == [] then OrderedMap([], map[])
    else
      var front := subnets[..|subnets| - 1];
      assert Azs(subnets) == Azs(front) + [subnets[|subnets| - 1].az];
      AddToZone(GroupByZone(front), subnets[|subnets| - 1])
  }

  lemma GroupByZoneSnoc(subnets: seq<Subnet>, i: nat)
    requires i < |subnets|
    ensures GroupByZone(subnets[..i + 1]) == AddToZone(GroupByZone(subnets[..i]), subnets[i])
  {
    assert subnets[..i + 1][..i] == subnets[..i];
  }

  /** Each zone of `$subnetsByAz` holds a non-empty list whose first id is that of the zone's first subnet. */
  lemma {:induction false} GroupByZoneFirst(subnets: seq<Subnet>)
    ensures forall az :: az in GroupByZone(subnets).entries ==>
              GroupByZone(subnets).entries[az] != [] && GroupByZone(subnets).entries[az][0] == FirstInZone(subnets, az).id
    decreases |subnets|
  {
    if subnets != [] {
      var front := subnets[..|subnets| - 1];
      var last := subnets[|subnets| - 1];
      assert Azs(subnets) == Azs(front) + [last.az];
      GroupByZoneFirst(front);
      GroupByZoneStep(subnets);
      var m := GroupByZone(front);
      var r := GroupByZone(subnets);
      assert r == AddToZone(m, last);
      forall az | az in r.entries
        ensures r.entries[az] != [] && r.entries[az][0] == FirstInZone(subnets, az).id
      {
        if az != last.az {
          assert r.entries[az] == m.entries[az];
          assert az in Azs(front);
        } else if az in m.entries {
          assert r.entries[az] == m.entries[az] + [last.id];
          assert az in Azs(front);
        } else {
          assert r.entries[az] == [last.id];
          assert az !in Azs(front);
        }
      }
    }
  }

  /** Adding a subnet at the end does not change the first subnet of a zone already listed. */
  lemma FirstInZoneExtend(subnets: seq<Subnet>, az: string)
    requires subnets != [] && az in Azs(subnets[..|subnets| - 1])
    ensures az in Azs(subnets)
    ensures FirstInZone(subnets, az) == FirstInZone(subnets[..|subnets| - 1], az)
  {
    var front := subnets[..|subnets| - 1];
    assert Azs(subnets) == Azs(front) + [subnets[|subnets| - 1].az];
    var k := FirstIndex(Azs(front), az);
    assert Azs(subnets)[..k] == Azs(front)[..k];
    FirstIndexUnique(Azs(subnets), az, k);
  }

  lemma GroupByZoneStep(subnets: seq<Subnet>)
    requires subnets != []
    ensures var front := subnets[..|subnets| - 1];
            var last := subnets[|subnets| - 1];
            last.az !in Azs(front) ==> FirstInZone(subnets, last.az) == last
    ensures forall az :: az in Azs(subnets[..|subnets| - 1]) ==>
              az in Azs(subnets) && FirstInZone(subnets, az) == FirstInZone(subnets[..|subnets| - 1], az)
  {
    var front := subnets[..|subnets| - 1];
    var last := subnets[|subnets| - 1];
    assert Azs(subnets) == Azs(front) + [last.az];
    if last.az !in Azs(front) {
      assert Azs(subnets)[..|subnets| - 1] == Azs(front);
      FirstIndexUnique(Azs(subnets), last.az, |subnets| - 1);
    }
    forall az | az in Azs(front)
      ensures az in Azs(subnets) && FirstInZone(subnets, az) == FirstInZone(front, az)
    {
      FirstInZoneExtend(subnets, az);
    }
  }

  /** `$subnetIds` after the second loop: the first id held under each key, in key order. */
  function FirstOfEach(m: OrderedMap<seq<string>>): (ids: seq<string>)
    requires forall az :: az in m.keys ==> az in m.entries && m.entries[az] != []
    ensures |ids| == |m.keys|
  {
    seq(|m.keys|, j requires 0 <= j < |m.keys| => m.entries[m.keys[j]][0])
  }

  /** The subnets the command puts in a new group: one per zone. */
  function OnePerZone(subnets: seq<Subnet>): seq<string> {
    GroupByZoneFirst(subnets);
    FirstOfEach(GroupByZone(subnets))
  }

  /** What `createDbSubnetGroup` does, given whether the provider accepts the request. */
  function CreateOutcome(vpcId: string, subnets: seq<Subnet>, name: Option<string>, clock: nat, accepted: bool): Creation {
    if |subnets| < 2 then TooFewSubnets
    else
      var ids := OnePerZone(subnets);
      if |ids| < 2 then TooFewZones
      else Submitted(CreateRequest(name.GetOr(GeneratedName(vpcId, clock)), Description(vpcId), ids, CreatedByTag), accepted)
  }

  /** The first loop of `createDbSubnetGroup`: group the subnet ids by zone. */
  method GroupSubnetsByZone(subnets: seq<Subnet>) returns (byAz: OrderedMap<seq<string>>)
    ensures byAz == GroupByZone(subnets)
  {
    byAz := OrderedMap([], map[]);
    var i := 0;
    while i < |subnets|
      invariant 0 <= i <= |subnets|
      invariant byAz == GroupByZone(subnets[..i])
    {
      ghost var before := byAz;
      var az := subnets[i].az;
      if az !in byAz.entries {
        byAz := byAz.Put(az, []);
      }
      byAz := byAz.Put(az, byAz.entries[az] + [subnets[i].id]);
      GroupByZoneSnoc(subnets, i);
      ghost var after := AddToZone(before, subnets[i]);
      assert byAz.entries == after.entries;
      assert byAz.keys == after.keys;
      i := i + 1;
    }
    assert subnets[..i] == subnets;
  }

  /** The second loop of `createDbSubnetGroup`: take the first id of each zone, in zone order. */
  method FirstIdOfEachZone(byAz: OrderedMap<seq<string>>) returns (subnetIds: seq<string>)
    requires forall az :: az in byAz.keys ==> az in byAz.entries && byAz.entries[az] != []
    ensures subnetIds == FirstOfEach(byAz)
  {
    ghost var firsts := FirstOfEach(byAz);
    subnetIds := [];
    var k := 0;
    while k < |byAz.keys|
      invariant 0 <= k <= |byAz.keys|
      invariant subnetIds == firsts[..k]
    {
      subnetIds := subnetIds + [byAz.entries[byAz.keys[k]][0]];
      k := k + 1;
    }
  }

  /** `createDbSubnetGroup`. */
  method CreateDbSubnetGroup(vpcId: string, subnets: seq<Subnet>, name: Option<string>, clock: nat, accepted: bool)
    returns (c: Creation)
    ensures c == CreateOutcome(vpcId, subnets, name, clock, accepted)
  {
    if |subnets| < 2 {
      return TooFewSubnets;
    }
    var byAz := GroupSubnetsByZone(subnets);
    GroupByZoneFirst(subnets);
    var subnetIds := FirstIdOfEachZone(byAz);
    if |subnetIds| < 2 {
      return TooFewZones;
    }
    var groupName := if name.Some? then name.value else GeneratedName(vpcId, clock);
    c := Submitted(CreateRequest(groupName, Description(vpcId), subnetIds, CreatedByTag), accepted);
  }

  /** The j-th selected id is that of the first subnet of the j-th zone. */
  lemma OnePerZoneAt(subnets: seq<Subnet>, j: nat)
    requires j < |Zones(subnets)|
    ensures Zones(subnets)[j] in Azs(subnets)
    ensures |OnePerZone(subnets)| == |Zones(subnets)|
    ensures OnePerZone(subnets)[j] == FirstInZone(subnets, Zones(subnets)[j]).id
  {
    GroupByZoneFirst(subnets);
  }

  /** The first subnet of a zone is in that zone, and no subnet listed before it is. */
  lemma FirstInZoneIsFirst(subnets: seq<Subnet>, az: string)
    requires az in Azs(subnets)
    ensures var i := FirstIndex(Azs(subnets), az);
            subnets[i] == FirstInZone(subnets, az) && subnets[i].az == az
            && forall k :: 0 <= k < i ==> subnets[k].az != az
  {
    var azs := Azs(subnets);
    var i := FirstIndex(azs, az);
    forall k | 0 <= k < i ensures subnets[k].az != az {
      assert azs[..i][k] == subnets[k].az;
    }
  }

  /**
   * The selection holds exactly one subnet per distinct zone: the j-th id is
   * that of the first subnet listed in the j-th zone to appear, the zones are
   * distinct, and every zone of the input is covered.
   */
  lemma OnePerZoneSelects(subnets: seq<Subnet>)
    ensures |OnePerZone(subnets)| == |Zones(subnets)| <= |subnets|
    ensures NoDuplicates(Zones(subnets))
    ensures forall i :: 0 <= i < |subnets| ==> subnets[i].az in Zones(subnets)
    ensures forall j :: 0 <= j < |Zones(subnets)| ==>
              exists i :: 0 <= i < |subnets| && subnets[i].az == Zones(subnets)[j]
                          && OnePerZone(subnets)[j] == subnets[i].id
                          && forall k :: 0 <= k < i ==> subnets[k].az != Zones(subnets)[j]
  {
    GroupByZoneFirst(subnets);
    forall i | 0 <= i < |subnets| ensures subnets[i].az in Zones(subnets) {
      assert Azs(subnets)[i] == subnets[i].az;
    }
    forall j | 0 <= j < |Zones(subnets)|
      ensures exists i :: 0 <= i < |subnets| && subnets[i].az == Zones(subnets)[j]
                          && OnePerZone(subnets)[j] == subnets[i].id
                          && forall k :: 0 <= k < i ==> subnets[k].az != Zones(subnets)[j]
    {
      var z := Zones(subnets)[j];
      OnePerZoneAt(subnets, j);
      FirstInZoneIsFirst(subnets, z);
      var i := FirstIndex(Azs(subnets), z);
      assert subnets[i].az == z && OnePerZone(subnets)[j] == subnets[i].id;
    }
  }

  /** The order of the selection follows the order in which each zone first appears in the listing. */
  lemma OnePerZoneOrder(subnets: seq<Subnet>, j1: nat, j2: nat)
    requires j1 < j2 < |Zones(subnets)|
    ensures FirstIndex(Azs(subnets), Zones(subnets)[j1]) < FirstIndex(Azs(subnets), Zones(subnets)[j2])
  {
    DedupFirstAppearance(Azs(subnets), j1, j2);
  }

  /**
   * The guards: a name comes back exactly when the subnets span at least two
   * zones and the provider accepts; then it is the explicit name if one was
   * passed, otherwise the generated one, and the request lists the one-per-zone
   * selection. Fewer than two subnets, or fewer than two zones, give null.
   */
  lemma CreateOutcomeGuards(vpcId: string, subnets: seq<Subnet>, name: Option<string>, clock: nat, accepted: bool)
    ensures var c := CreateOutcome(vpcId, subnets, name, clock, accepted);
            (|subnets| < 2 ==> c == TooFewSubnets)
            && (|Zones(subnets)| < 2 ==> c.Name() == None)
            && (c.Name().Some? <==> |Zones(subnets)| >= 2 && accepted)
            && (c.Submitted? ==> c.request.subnetIds == OnePerZone(subnets) && |c.request.subnetIds| >= 2
                                 && c.request.name == (if name.Some? then name.value else GeneratedName(vpcId, clock)))
  {
    OnePerZoneSelects(subnets);
  }

  /**
   * A generated name starts with "default-", holds neither spaces nor upper-case
   * ASCII letters, and ends with the decimal clock reading, which can be read back.
   */
  lemma {:induction false} GeneratedNameShape(vpcId: string, clock: nat)
    ensures var n := GeneratedName(vpcId, clock);
            var digits := |DecimalString(clock)|;
            n[..|DefaultNamePrefix|] == DefaultNamePrefix
            && ' ' !in n
            && (forall i :: 0 <= i < |n| ==> !IsUpper(n[i]))
            && |n| == |DefaultNamePrefix| + |vpcId| + 1 + digits
            && AllDigits(n[|n| - digits..]) && ParseDecimal(n[|n| - digits..]) == clock
  {
    var core := NormalizedVpcId(vpcId);
    var d := DecimalString(clock);
    var n := GeneratedName(vpcId, clock);
    assert n == DefaultNamePrefix + core + "-" + d;
    assert n[|n| - |d|..] == d;
    forall i | 0 <= i < |n| ensures n[i] != ' ' && !IsUpper(n[i]) {
      if i < |DefaultNamePrefix| {
        assert n[i] == DefaultNamePrefix[i];
      } else if i < |DefaultNamePrefix| + |core| {
        assert n[i] == core[i - |DefaultNamePrefix|];
        assert !IsUpper(StrToLower(vpcId)[i - |DefaultNamePrefix|]);
      } else if i == |DefaultNamePrefix| + |core| {
        assert n[i] == '-';
      } else {
        assert n[i] == d[i - |DefaultNamePrefix| - |core| - 1];
      }
    }
    ParseDecimalString(clock);
  }
}
