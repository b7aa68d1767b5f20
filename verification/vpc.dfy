/** `VpcStack`: one network per CIDR block, each with a public and a private /27
subnet group in every zone, and one ICMP-ping ingress rule on each network's
default security group.

What the CDK library does inside `new ec2.Vpc(...)` is modelled by assumptions
about that construct, with which the resource counts of the stack's tests agree:
one subnet per group and zone, each with its own route table holding one default
route (public subnets to the network's internet gateway, private subnets to the
NAT gateway of their zone), one internet gateway per network and one NAT gateway
with an elastic IP per zone.
 */
module Vpc {
  import opened Naming
  import opened Topology

  /** The zone count used when `maxAzs` is not given. */
  const DefaultMaxAzs: nat := 2

  const VpcPrefix: string := "Vpc"
  const SecurityGroupPrefix: string := "DefaultSecurityGroup"

  /** ICMP type of an echo request; `ec2.Port.icmpPing()` opens it for every code (-1). */
  const IcmpEchoRequest: int := 8
  const AnyIcmpCode: int := -1

  datatype SubnetConfiguration = SubnetConfiguration(cidrMask: nat, name: string, subnetType: SubnetType)

  /** The two subnet groups every network is built with. */
  const SubnetConfigurations: seq<SubnetConfiguration> := [
    SubnetConfiguration(27, "public", Public),
    SubnetConfiguration(27, "private", Private)
  ]

  /** The stack's input: CIDR blocks in order, an optional zone count and optional
      VPN connections shared by every network. */
  datatype VpcSetup = VpcSetup(
    cidrs: seq<Cidr>,
    maxAzs: Option<nat>,
    vpnConnections: Option<VpnConnections>)

  /** An ingress rule added to an imported security group; `scopeId` is the id of
      the construct that imports the group. */
  datatype IngressRule = IngressRule(
    scopeId: string,
    groupId: SecurityGroupId,
    peer: Cidr,
    protocol: string,
    fromPort: int,
    toPort: int,
    description: string)

  datatype VpcStack = VpcStack(createdVpcs: seq<Network>, ingressRules: seq<IngressRule>)

  /** True iff the rule lets ICMP echo requests in from any IPv4 address. */
  predicate IsPingFromAnywhere(rule: IngressRule) {
    && rule.peer == AnyIpv4
    && rule.protocol == "icmp"
    && rule.fromPort == IcmpEchoRequest
    && rule.toPort == AnyIcmpCode
  }

  function ZoneCount(maxAzs: Option<nat>): nat {
    match maxAzs
    case None => DefaultMaxAzs
    case Some(z) => z
  }

  /** The default egress the library gives a subnet of the given type in zone `z`. */
  function DefaultEgress(vpc: ConstructPath, subnetType: SubnetType, z: nat): RouteTarget {
    match subnetType
    case Public => ViaInternetGateway(vpc)
    case Private => ViaNatGateway(vpc, z)
  }

  /** One subnet per zone for one subnet group. */
  function SubnetGroup(vpc: ConstructPath, config: SubnetConfiguration, zones: nat): seq<Subnet> {
    seq(zones, z requires 0 <= z < zones =>
      Subnet(SubnetId(vpc, config.name, z), config.subnetType, config.cidrMask,
             RouteTableId(SubnetId(vpc, config.name, z)),
             DefaultEgress(vpc, config.subnetType, z)))
  }

  /** `new ec2.Vpc(this, 'Vpc' + index, {...})` inside the stack `stackId`. */
  function NewVpc(stackId: string, index: nat, cidr: Cidr, zones: nat, vpn: Option<VpnConnections>): Network {
    var id := Numbered(VpcPrefix, index);
    var path := ConstructPath(stackId, id);
    var publicSubnets := SubnetGroup(path, SubnetConfigurations[0], zones);
    Network(stackId, id, cidr,
            publicSubnets,
            SubnetGroup(path, SubnetConfigurations[1], zones),
            seq(zones, z requires 0 <= z < zones => publicSubnets[z].id),
            vpn)
  }

  /** The ingress rule the stack adds to the default security group of `vpc`. */
  function AllowPing(index: nat, vpc: Network): IngressRule {
    IngressRule(Numbered(SecurityGroupPrefix, index), vpc.DefaultSecurityGroup(),
                AnyIpv4, "icmp", IcmpEchoRequest, AnyIcmpCode, "Allow ping from anywhere")
  }

  /** The `VpcStack` constructor; `stackId` is the stack's own id. */
  function Synthesize(stackId: string, setup: VpcSetup): (stack: VpcStack)
    ensures |stack.createdVpcs| == |setup.cidrs|
    ensures forall i :: 0 <= i < |setup.cidrs| ==>
      var n := stack.createdVpcs[i];
      && n.cidr == setup.cidrs[i]
      && n.VpcId() == ConstructPath(stackId, Numbered(VpcPrefix, i))
      && n.vpnConnections == setup.vpnConnections
    ensures forall i :: 0 <= i < |setup.cidrs| ==>
      var n := stack.createdVpcs[i];
      var zones := if setup.maxAzs.Some? then setup.maxAzs.value else 2;
      |n.publicSubnets| == |n.privateSubnets| == |n.natGateways| == zones
    ensures |stack.ingressRules| == |setup.cidrs|
    ensures forall i :: 0 <= i < |setup.cidrs| ==>
      && stack.ingressRules[i].groupId == stack.createdVpcs[i].DefaultSecurityGroup()
      && IsPingFromAnywhere(stack.ingressRules[i])
  {
    var zones := ZoneCount(setup.maxAzs);
    var vpcs := seq(|setup.cidrs|, i requires 0 <= i < |setup.cidrs| =>
                  NewVpc(stackId, i, setup.cidrs[i], zones, setup.vpnConnections));
    VpcStack(vpcs, seq(|vpcs|, i requires 0 <= i < |vpcs| => AllowPing(i, vpcs[i])))
  }

  /** Every construct id the stack declares, networks first. */
  function ConstructIds(stack: VpcStack): seq<string> {
    seq(|stack.createdVpcs|, i requires 0 <= i < |stack.createdVpcs| => stack.createdVpcs[i].constructId)
    + seq(|stack.ingressRules|, i requires 0 <= i < |stack.ingressRules| => stack.ingressRules[i].scopeId)
  }

  /** Each built network has exactly the two configured subnet groups, both /27,
      in zone order, each subnet with its own route table and the default egress
      of its type; the network's NAT gateways sit in its public subnets. */
  lemma BuiltNetworksAsConfigured(stackId: string, setup: VpcSetup, i: nat)
    requires i < |setup.cidrs|
    ensures var n := Synthesize(stackId, setup).createdVpcs[i];
      && WellFormed(n)
      && (forall s :: s in n.publicSubnets ==>
            s.cidrMask == 27 && s.id.group == "public" && s.defaultRoute == ViaInternetGateway(n.VpcId()))
      && (forall s :: s in n.privateSubnets ==>
            s.cidrMask == 27 && s.id.group == "private" && s.defaultRoute == ViaNatGateway(n.VpcId(), s.id.zone))
      && (forall z :: 0 <= z < |n.natGateways| ==> n.natGateways[z] == n.publicSubnets[z].id)
  {
    var n := Synthesize(stackId, setup).createdVpcs[i];
    var tables := n.RouteTables();
    var p := |n.publicSubnets|;
    forall a, b | 0 <= a < b < |tables|
      ensures tables[a] != tables[b]
    {
      if b < p {
        assert tables[a].subnet.zone == a && tables[b].subnet.zone == b;
      } else if a < p {
        assert tables[a].subnet.group == "public" && tables[b].subnet.group == "private";
      } else {
        assert tables[a].subnet.zone == a - p && tables[b].subnet.zone == b - p;
      }
    }
  }

  /** Every route table of a built network belongs to that network. */
  lemma BuiltTablesBelongToNetwork(stackId: string, setup: VpcSetup, i: nat)
    requires i < |setup.cidrs|
    ensures var n := Synthesize(stackId, setup).createdVpcs[i];
      forall t :: t in n.PublicTables() + n.PrivateTables() ==>
        t.subnet.vpc == ConstructPath(stackId, Numbered(VpcPrefix, i))
  {
  }

  /** Two built networks are different VPCs sharing no route table, so routes
      added to one never land in the other, whenever they come from differently
      named stacks or from different indices: two `VpcStack`s may both declare a
      `'Vpc0'`. */
  lemma BuiltNetworksSeparate(stack1: string, setup1: VpcSetup, i: nat, stack2: string, setup2: VpcSetup, j: nat)
    requires i < |setup1.cidrs| && j < |setup2.cidrs|
    requires stack1 != stack2 || i != j
    ensures var a := Synthesize(stack1, setup1).createdVpcs[i];
      var b := Synthesize(stack2, setup2).createdVpcs[j];
      a.VpcId() != b.VpcId() && Separate(a, b)
  {
    BuiltTablesBelongToNetwork(stack1, setup1, i);
    BuiltTablesBelongToNetwork(stack2, setup2, j);
    NumberedInjective(VpcPrefix, i, j);
  }

  /** No two constructs of the stack share an id: `'Vpc' + i` and
      `'DefaultSecurityGroup' + i` for every index. */
  lemma ConstructIdsUnique(stackId: string, setup: VpcSetup)
    ensures Distinct(ConstructIds(Synthesize(stackId, setup)))
  {
    var stack := Synthesize(stackId, setup);
    var ids := ConstructIds(stack);
    var n := |stack.createdVpcs|;
    assert Diverge(VpcPrefix, SecurityGroupPrefix) by {
      assert VpcPrefix[0] != SecurityGroupPrefix[0];
    }
    forall a, b | 0 <= a < b < |ids|
      ensures ids[a] != ids[b]
    {
      if b < n {
        assert ids[a] == Numbered(VpcPrefix, a) && ids[b] == Numbered(VpcPrefix, b);
        NumberedInjective(VpcPrefix, a, b);
      } else if a < n {
        assert ids[a] == Numbered(VpcPrefix, a) && ids[b] == Numbered(SecurityGroupPrefix, b - n);
        NumberedApart(VpcPrefix, SecurityGroupPrefix, a, b - n);
      } else {
        assert ids[a] == Numbered(SecurityGroupPrefix, a - n);
        assert ids[b] == Numbered(SecurityGroupPrefix, b - n);
        NumberedInjective(SecurityGroupPrefix, a - n, b - n);
      }
    }
  }

  /** Each network's default security group receives exactly one ingress rule, and
      that rule admits ping from anywhere. */
  lemma OnePingRulePerNetwork(stackId: string, setup: VpcSetup)
    ensures var stack := Synthesize(stackId, setup);
      forall i, k :: 0 <= i < |stack.createdVpcs| && 0 <= k < |stack.ingressRules| ==>
        (stack.ingressRules[k].groupId == stack.createdVpcs[i].DefaultSecurityGroup() <==> k == i)
    ensures var stack := Synthesize(stackId, setup);
      forall k :: 0 <= k < |stack.ingressRules| ==> IsPingFromAnywhere(stack.ingressRules[k])
  {
    var stack := Synthesize(stackId, setup);
    forall i, k | 0 <= i < |stack.createdVpcs| && 0 <= k < |stack.ingressRules|
      ensures stack.ingressRules[k].groupId == stack.createdVpcs[i].DefaultSecurityGroup() <==> k == i
    {
      NumberedInjective(VpcPrefix, i, k);
    }
  }

  // ---------------------------------------------------------------------------
  // Resource inventory: the CloudFormation resource types the stack's tests count.

  datatype ResourceType =
    | Ec2Vpc
    | Ec2Subnet
    | Ec2RouteTable
    | Ec2SubnetRouteTableAssociation
    | Ec2Route
    | Ec2InternetGateway
    | Ec2VpcGatewayAttachment
    | Ec2NatGateway
    | Ec2Eip
    | Ec2SecurityGroupIngress

  /** Gateway attachments of one network: the internet gateway's, plus the VPN
      gateway's when VPN connections are given.  The library enables a VPN
      gateway whenever `vpnConnections` is set, even to an empty map. */
  function GatewayAttachments(vpn: Option<VpnConnections>): nat {
    if vpn.Some? then 2 else 1
  }

  /** How many resources of type `t` one network brings: the VPC, its internet
      gateway and the gateway attachments; per subnet the subnet, its route
      table, their association and the default route; per NAT gateway the gateway
      and its elastic IP. */
  function NetworkCount(n: Network, t: ResourceType): nat {
    match t
    case Ec2Vpc | Ec2InternetGateway => 1
    case Ec2VpcGatewayAttachment => GatewayAttachments(n.vpnConnections)
    case Ec2Subnet | Ec2RouteTable | Ec2SubnetRouteTableAssociation | Ec2Route =>
      |n.publicSubnets| + |n.privateSubnets|
    case Ec2NatGateway | Ec2Eip => |n.natGateways|
    case Ec2SecurityGroupIngress => 0
  }

  function NetworksCount(ns: seq<Network>, t: ResourceType): nat
    decreases |ns|
  {
    if |ns| == 0 then 0 else NetworksCount(ns[..|ns| - 1], t) + NetworkCount(ns[|ns| - 1], t)
  }

  /** How many resources of type `t` the whole stack declares. */
  function Count(stack: VpcStack, t: ResourceType): nat {
    NetworksCount(stack.createdVpcs, t)
    + (if t == Ec2SecurityGroupIngress then |stack.ingressRules| else 0)
  }

  /** Networks that each bring `c` resources of a type bring `c` per network. */
  lemma {:induction false} UniformNetworksCount(ns: seq<Network>, t: ResourceType, c: nat)
    requires forall i :: 0 <= i < |ns| ==> NetworkCount(ns[i], t) == c
    ensures NetworksCount(ns, t) == |ns| * c
    decreases |ns|
  {
    if |ns| > 0 {
      UniformNetworksCount(ns[..|ns| - 1], t, c);
    }
  }

  /** True iff every network of the stack has `z` zones and `g` gateway
      attachments, and the stack adds one ingress rule per network. */
  predicate UniformStack(stack: VpcStack, z: nat, g: nat) {
    && |stack.ingressRules| == |stack.createdVpcs|
    && forall i :: 0 <= i < |stack.createdVpcs| ==>
         var n := stack.createdVpcs[i];
         && |n.publicSubnets| == z && |n.privateSubnets| == z && |n.natGateways| == z
         && GatewayAttachments(n.vpnConnections) == g
  }

  /** Resource counts of a stack of `n` networks with `z` zones and `g` gateway
      attachments each. */
  lemma UniformStackCounts(stack: VpcStack, z: nat, g: nat)
    requires UniformStack(stack, z, g)
    ensures var n := |stack.createdVpcs|;
      && Count(stack, Ec2Vpc) == n
      && Count(stack, Ec2Subnet) == n * (2 * z)
      && Count(stack, Ec2RouteTable) == n * (2 * z)
      && Count(stack, Ec2SubnetRouteTableAssociation) == n * (2 * z)
      && Count(stack, Ec2Route) == n * (2 * z)
      && Count(stack, Ec2InternetGateway) == n
      && Count(stack, Ec2VpcGatewayAttachment) == n * g
      && Count(stack, Ec2NatGateway) == n * z
      && Count(stack, Ec2Eip) == n * z
      && Count(stack, Ec2SecurityGroupIngress) == n
  {
    var vpcs := stack.createdVpcs;
    var n := |vpcs|;
    assert Count(stack, Ec2Vpc) == n by { UniformNetworksCount(vpcs, Ec2Vpc, 1); }
    assert Count(stack, Ec2InternetGateway) == n by { UniformNetworksCount(vpcs, Ec2InternetGateway, 1); }
    assert Count(stack, Ec2VpcGatewayAttachment) == n * g by {
      UniformNetworksCount(vpcs, Ec2VpcGatewayAttachment, g);
    }
    assert Count(stack, Ec2Subnet) == n * (2 * z) by { UniformNetworksCount(vpcs, Ec2Subnet, 2 * z); }
    assert Count(stack, Ec2RouteTable) == n * (2 * z) by { UniformNetworksCount(vpcs, Ec2RouteTable, 2 * z); }
    assert Count(stack, Ec2SubnetRouteTableAssociation) == n * (2 * z) by {
      UniformNetworksCount(vpcs, Ec2SubnetRouteTableAssociation, 2 * z);
    }
    assert Count(stack, Ec2Route) == n * (2 * z) by { UniformNetworksCount(vpcs, Ec2Route, 2 * z); }
    assert Count(stack, Ec2NatGateway) == n * z by { UniformNetworksCount(vpcs, Ec2NatGateway, z); }
    assert Count(stack, Ec2Eip) == n * z by { UniformNetworksCount(vpcs, Ec2Eip, z); }
    assert Count(stack, Ec2SecurityGroupIngress) == n by { UniformNetworksCount(vpcs, Ec2SecurityGroupIngress, 0); }
  }

  /** The stack is uniform in the zone count and the VPN connections its setup
      asks for. */
  lemma SynthesizedStackUniform(stackId: string, setup: VpcSetup)
    ensures UniformStack(Synthesize(stackId, setup), ZoneCount(setup.maxAzs), GatewayAttachments(setup.vpnConnections))
  {
  }

  /** Resource counts of the stack built from a setup of `n` CIDR blocks and `z`
      zones: per network one VPC and internet gateway, one gateway attachment (two
      with VPN connections, the second for the VPN gateway), `2 * z`
      subnets with as many route tables, associations and default routes, `z` NAT
      gateways with as many elastic IPs, and one ingress rule. */
  lemma ResourceCounts(stackId: string, setup: VpcSetup)
    ensures var stack := Synthesize(stackId, setup);
      var n := |setup.cidrs|;
      var z := ZoneCount(setup.maxAzs);
      && Count(stack, Ec2Vpc) == n
      && Count(stack, Ec2Subnet) == n * (2 * z)
      && Count(stack, Ec2RouteTable) == n * (2 * z)
      && Count(stack, Ec2SubnetRouteTableAssociation) == n * (2 * z)
      && Count(stack, Ec2Route) == n * (2 * z)
      && Count(stack, Ec2InternetGateway) == n
      && Count(stack, Ec2VpcGatewayAttachment) == n * (if setup.vpnConnections.Some? then 2 else 1)
      && Count(stack, Ec2NatGateway) == n * z
      && Count(stack, Ec2Eip) == n * z
      && Count(stack, Ec2SecurityGroupIngress) == n
  {
    SynthesizedStackUniform(stackId, setup);
    UniformStackCounts(Synthesize(stackId, setup), ZoneCount(setup.maxAzs), GatewayAttachments(setup.vpnConnections));
  }

  /** Two CIDRs and one zone: two VPCs; four subnets, route tables, associations
      and routes; two attached internet gateways; two NAT gateways with elastic
      IPs; two ping ingress rules. */
  lemma TwoCidrsOneZone()
    ensures var stack := Synthesize("TestVpcStack", VpcSetup(["10.0.0.0/24", "10.0.1.0/24"], Some(1), None));
      && Count(stack, Ec2Vpc) == 2
      && Count(stack, Ec2Subnet) == 4 && Count(stack, Ec2RouteTable) == 4
      && Count(stack, Ec2SubnetRouteTableAssociation) == 4 && Count(stack, Ec2Route) == 4
      && Count(stack, Ec2InternetGateway) == 2 && Count(stack, Ec2VpcGatewayAttachment) == 2
      && Count(stack, Ec2NatGateway) == 2 && Count(stack, Ec2Eip) == 2
      && Count(stack, Ec2SecurityGroupIngress) == 2
  {
    var setup := VpcSetup(["10.0.0.0/24", "10.0.1.0/24"], Some(1), None);
    assert |setup.cidrs| == 2 && ZoneCount(setup.maxAzs) == 1;
    ResourceCounts("TestVpcStack", setup);
  }

  /** One CIDR, one zone and one VPN connection, as for a network that is the
      destination of a site-to-site VPN: one VPC with one NAT gateway, and two
      gateway attachments, one for the internet gateway and one for the VPN
      gateway. */
  lemma OneCidrOneZoneWithVpn()
    ensures var vpn := map["toOnPrem" := VpnConnectionOptions("52.51.199.29", ["10.0.2.0/24"])];
      var stack := Synthesize("VpcVpnDestinationStack", VpcSetup(["10.0.3.0/24"], Some(1), Some(vpn)));
      && Count(stack, Ec2Vpc) == 1
      && Count(stack, Ec2InternetGateway) == 1 && Count(stack, Ec2VpcGatewayAttachment) == 2
      && Count(stack, Ec2NatGateway) == 1 && Count(stack, Ec2Subnet) == 2
  {
    var vpn := map["toOnPrem" := VpnConnectionOptions("52.51.199.29", ["10.0.2.0/24"])];
    var setup := VpcSetup(["10.0.3.0/24"], Some(1), Some(vpn));
    assert |setup.cidrs| == 1 && ZoneCount(setup.maxAzs) == 1;
    ResourceCounts("VpcVpnDestinationStack", setup);
  }
}
