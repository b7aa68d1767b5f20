/** `PeeringStack`: one VPC peering connection from the first of two networks (the
requester) to the second (the accepter), and the private-subnet routes of both
networks towards each other through that connection.
 */
module Peering {
  import opened Topology
  import Vpc
  import Routing

  const PeerConstructId: string := "Peer"

  /** `ec2.CfnVPCPeeringConnection`, declared in stack `stackId`: `vpcId`
      requests, `peerVpcId` accepts. */
  datatype PeeringConnection = PeeringConnection(
    stackId: string,
    constructId: string,
    vpcId: ConstructPath,
    peerVpcId: ConstructPath)
  {
    /** `peer.ref`: the connection's id, as routes reference it. */
    function Ref(): ConstructPath {
      ConstructPath(stackId, constructId)
    }
  }

  datatype PeeringStack = PeeringStack(peer: PeeringConnection, routes: seq<CfnRoute>)

  /** The `PeeringStack` constructor; `stackId` is the stack's own id and `vpcs`
      its two-element tuple. */
  function Synthesize(stackId: string, vpcs: seq<Network>): (stack: PeeringStack)
    requires |vpcs| == 2
    ensures stack.peer.vpcId == vpcs[0].VpcId() && stack.peer.peerVpcId == vpcs[1].VpcId()
    ensures |stack.routes| == |vpcs[0].privateSubnets| + |vpcs[1].privateSubnets|
    ensures forall r :: r in stack.routes ==> r.target == ViaPeeringConnection(stack.peer.Ref())
  {
    var peer := PeeringConnection(stackId, PeerConstructId, vpcs[0].VpcId(), vpcs[1].VpcId());
    PeeringStack(peer, Routing.Bidirectional(vpcs[0], vpcs[1], ViaPeeringConnection(peer.Ref())))
  }

  /** After peering, every private route table of each network has a route to the
      other network's block through the connection this stack created. */
  lemma PeeringConnects(stackId: string, vpcs: seq<Network>)
    requires |vpcs| == 2
    ensures var stack := Synthesize(stackId, vpcs);
      var link := ViaPeeringConnection(stack.peer.Ref());
      && Routing.ReachesFrom(stack.routes, vpcs[0], vpcs[1], link)
      && Routing.ReachesFrom(stack.routes, vpcs[1], vpcs[0], link)
  {
    Routing.BidirectionalReaches(vpcs[0], vpcs[1], ViaPeeringConnection(ConstructPath(stackId, PeerConstructId)));
  }

  /** For two well-formed networks that share no route table: each private route
      table of the first holds exactly one of the stack's routes, towards the
      second's block; each private route table of the second exactly one, towards
      the first's block; public route tables hold none. */
  lemma PeeringPlacement(stackId: string, vpcs: seq<Network>)
    requires |vpcs| == 2
    requires WellFormed(vpcs[0]) && WellFormed(vpcs[1]) && Separate(vpcs[0], vpcs[1])
    ensures var routes := Synthesize(stackId, vpcs).routes;
      forall i, k :: 0 <= i < |vpcs[0].privateSubnets| && 0 <= k < |routes| ==>
        (routes[k].routeTable == vpcs[0].privateSubnets[i].routeTable <==> k == i)
    ensures var routes := Synthesize(stackId, vpcs).routes;
      forall i, k :: 0 <= i < |vpcs[1].privateSubnets| && 0 <= k < |routes| ==>
        (routes[k].routeTable == vpcs[1].privateSubnets[i].routeTable
         <==> k == |vpcs[0].privateSubnets| + i)
    ensures var routes := Synthesize(stackId, vpcs).routes;
      forall k :: 0 <= k < |routes| ==>
        && (k < |vpcs[0].privateSubnets| ==> routes[k].destination == vpcs[1].cidr)
        && (k >= |vpcs[0].privateSubnets| ==> routes[k].destination == vpcs[0].cidr)
    ensures forall r :: r in Synthesize(stackId, vpcs).routes ==>
      r.routeTable !in vpcs[0].PublicTables() + vpcs[1].PublicTables()
  {
    Routing.BidirectionalPlacement(vpcs[0], vpcs[1], ViaPeeringConnection(ConstructPath(stackId, PeerConstructId)));
  }

  /** Every construct id in the stack is distinct: the connection `'Peer'` and the
      routes `'RouteFromPrivateSubnetOfVpc1ToVpc2' + i` and
      `'RouteFromPrivateSubnetOfVpc2ToVpc1' + i`. */
  lemma PeeringIdsUnique(stackId: string, vpcs: seq<Network>)
    requires |vpcs| == 2
    ensures var stack := Synthesize(stackId, vpcs);
      && (forall k :: 0 <= k < |stack.routes| ==> stack.routes[k].constructId != stack.peer.constructId)
      && (forall k, l :: 0 <= k < l < |stack.routes| ==>
            stack.routes[k].constructId != stack.routes[l].constructId)
  {
    var stack := Synthesize(stackId, vpcs);
    Routing.BidirectionalIdsUnique(vpcs[0], vpcs[1], ViaPeeringConnection(ConstructPath(stackId, PeerConstructId)));
    forall k | 0 <= k < |stack.routes|
      ensures stack.routes[k].constructId != stack.peer.constructId
    {
      Routing.BidirectionalIdHead(vpcs[0], vpcs[1], ViaPeeringConnection(ConstructPath(stackId, PeerConstructId)), k);
    }
  }

  /** Peering two networks built by `VpcStack`s, either two of one stack or one
      from each of two differently named stacks, joins two different VPCs, adds
      one route per private subnet on either side, and meets the conditions under
      which `PeeringPlacement` gives exactly one route per private route table. */
  lemma PeeringBuiltNetworks(stackId: string,
                             stack1: string, setup1: Vpc.VpcSetup, i: nat,
                             stack2: string, setup2: Vpc.VpcSetup, j: nat)
    requires i < |setup1.cidrs| && j < |setup2.cidrs|
    requires stack1 != stack2 || i != j
    ensures var a := Vpc.Synthesize(stack1, setup1).createdVpcs[i];
      var b := Vpc.Synthesize(stack2, setup2).createdVpcs[j];
      var stack := Synthesize(stackId, [a, b]);
      && stack.peer.vpcId != stack.peer.peerVpcId
      && |stack.routes| == Vpc.ZoneCount(setup1.maxAzs) + Vpc.ZoneCount(setup2.maxAzs)
      && WellFormed(a) && WellFormed(b) && Separate(a, b)
  {
    Vpc.BuiltNetworksAsConfigured(stack1, setup1, i);
    Vpc.BuiltNetworksAsConfigured(stack2, setup2, j);
    Vpc.BuiltNetworksSeparate(stack1, setup1, i, stack2, setup2, j);
  }

  /** Two networks of `'TestVpcStack'` with one zone each, peered by
      `'TestPeeringStack'`: two routes, both through that stack's `'Peer'`. */
  lemma PeeringTwoNetworksOneZone()
    ensures var setup := Vpc.VpcSetup(["10.0.0.0/24", "10.0.1.0/24"], Some(1), None);
      var built := Vpc.Synthesize("TestVpcStack", setup).createdVpcs;
      var stack := Synthesize("TestPeeringStack", [built[0], built[1]]);
      && |stack.routes| == 2
      && forall r :: r in stack.routes ==>
           r.target == ViaPeeringConnection(ConstructPath("TestPeeringStack", "Peer"))
  {
    var setup := Vpc.VpcSetup(["10.0.0.0/24", "10.0.1.0/24"], Some(1), None);
    PeeringBuiltNetworks("TestPeeringStack", "TestVpcStack", setup, 0, "TestVpcStack", setup, 1);
  }
}
