/** The resource graph the stacks synthesize: networks (VPCs) with zoned public and
private subnets, each subnet bound to its own route table, and the route entries
the connector stacks add to those tables.

The `ec2.Vpc` construct of the CDK library is treated abstractly: what the stacks
read from it is its place in the app (the id of the stack that declares it and its
construct id there), its CIDR block, its public and private subnets in zone order,
and each subnet's route table.
 */
module Topology {

  datatype Option<T> = None | Some(value: T)

  /** An IPv4 address block in CIDR notation, kept as text. */
  type Cidr = string

  /** The block `ec2.Peer.anyIpv4()` denotes. */
  const AnyIpv4: Cidr := "0.0.0.0/0"

  datatype SubnetType = Public | Private

  /** Where a construct sits in the app: the id of the stack that declares it and
      its own id within that stack.  Construct ids are unique within a stack and
      stack ids within the app, so the path identifies the resource; `Ref` of a
      resource construct (a VPC id, a peering connection id, a gateway id) is
      modelled by its path. */
  datatype ConstructPath = ConstructPath(stack: string, id: string)

  /** A subnet is identified by its network, its subnet-group name and its zone
      index. */
  datatype SubnetId = SubnetId(vpc: ConstructPath, group: string, zone: nat)

  /** Every subnet owns exactly one route table, identified by the subnet. */
  datatype RouteTableId = RouteTableId(subnet: SubnetId)

  /** What a route forwards to. */
  datatype RouteTarget =
    | ViaInternetGateway(vpc: ConstructPath)
    | ViaNatGateway(vpc: ConstructPath, zone: nat)
    | ViaPeeringConnection(connection: ConstructPath)
    /** `Fn::ImportValue(exportName)`, resolved only at deployment time. */
    | ViaImportedTransitGateway(exportName: string)

  /** A subnet with its route table and the default (0.0.0.0/0) route the library
      puts in that table; its zone is `id.zone`. */
  datatype Subnet = Subnet(
    id: SubnetId,
    subnetType: SubnetType,
    cidrMask: nat,
    routeTable: RouteTableId,
    defaultRoute: RouteTarget)

  /** Site-to-site VPN connection options, passed through to the library. */
  datatype VpnConnectionOptions = VpnConnectionOptions(ip: string, staticRoutes: seq<Cidr>)

  type VpnConnections = map<string, VpnConnectionOptions>

  /** The id `vpc.vpcDefaultSecurityGroup` yields: an attribute of the VPC resource. */
  datatype SecurityGroupId = DefaultSecurityGroupOf(vpc: ConstructPath)

  /** One network as the stacks see an `ec2.Vpc`.  `natGateways` lists the public
      subnet hosting each NAT gateway (each NAT gateway has its own elastic IP);
      every network has one attached internet gateway. */
  datatype Network = Network(
    stackId: string,
    constructId: string,
    cidr: Cidr,
    publicSubnets: seq<Subnet>,
    privateSubnets: seq<Subnet>,
    natGateways: seq<SubnetId>,
    vpnConnections: Option<VpnConnections>)
  {
    /** `vpc.vpcId`: a reference to the VPC construct. */
    function VpcId(): ConstructPath {
      ConstructPath(stackId, constructId)
    }

    function DefaultSecurityGroup(): SecurityGroupId {
      DefaultSecurityGroupOf(VpcId())
    }

    /** The route tables of all subnets, public first. */
    function RouteTables(): seq<RouteTableId> {
      seq(|publicSubnets|, i requires 0 <= i < |publicSubnets| => publicSubnets[i].routeTable)
      + seq(|privateSubnets|, i requires 0 <= i < |privateSubnets| => privateSubnets[i].routeTable)
    }

    function PublicTables(): set<RouteTableId> {
      set s | s in publicSubnets :: s.routeTable
    }

    function PrivateTables(): set<RouteTableId> {
      set s | s in privateSubnets :: s.routeTable
    }
  }

  /** A route entry a connector stack declares (`ec2.CfnRoute`). */
  datatype CfnRoute = CfnRoute(
    constructId: string,
    routeTable: RouteTableId,
    destination: Cidr,
    target: RouteTarget)

  /** True iff no element of `s` occurs twice. */
  predicate Distinct<T(==)>(s: seq<T>) {
    forall i, j :: 0 <= i < j < |s| ==> s[i] != s[j]
  }

  /** The shape every network of the library has: subnets of the right type in
      zone order, and a route table per subnet that no other subnet shares. */
  predicate WellFormed(n: Network) {
    && (forall i :: 0 <= i < |n.publicSubnets| ==>
          n.publicSubnets[i].subnetType == Public && n.publicSubnets[i].id.zone == i)
    && (forall i :: 0 <= i < |n.privateSubnets| ==>
          n.privateSubnets[i].subnetType == Private && n.privateSubnets[i].id.zone == i)
    && Distinct(n.RouteTables())
  }

  /** True iff two networks share no route table. */
  predicate Separate(a: Network, b: Network) {
    (a.PublicTables() + a.PrivateTables()) !! (b.PublicTables() + b.PrivateTables())
  }
}
