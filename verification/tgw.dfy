/** The transit-gateway pair of stacks.

`TransitGatewayStack` creates one transit gateway, attaches the private subnets of
every given network to it and exports the gateway's id under the name
`TransitGatewayId`.  `RoutesToTransitGatewayStack` adds routes between the private
subnets of the first two networks only, naming the gateway through an import of
that export; the export must already be published when the routes are deployed.
 */
module TransitGateway {
  import opened Naming
  import opened Topology
  import Vpc
  import Routing

  const TgwConstructId: string := "Tgw"
  const AttachmentPrefix: string := "TgwVpcAttachment"
  const OutputConstructId: string := "TransitGatewayId"

  /** The name the hub stack exports the gateway id under and the routes import. */
  const ExportName: string := "TransitGatewayId"

  /** `ec2.CfnTransitGateway`, declared in stack `stackId`. */
  datatype Hub = Hub(stackId: string, constructId: string)
  {
    /** `tgw.ref`: the gateway's id. */
    function Ref(): ConstructPath {
      ConstructPath(stackId, constructId)
    }
  }

  /** `ec2.CfnTransitGatewayAttachment`. */
  datatype Attachment = Attachment(
    constructId: string,
    subnetIds: seq<SubnetId>,
    transitGatewayId: ConstructPath,
    vpcId: ConstructPath)

  /** `cdk.CfnOutput` with an export name. */
  datatype Output = Output(constructId: string, value: ConstructPath, exportName: string)

  datatype TransitGatewayStack = TransitGatewayStack(tgw: Hub, attachments: seq<Attachment>, output: Output)

  datatype RoutesToTransitGatewayStack = RoutesToTransitGatewayStack(routes: seq<CfnRoute>)

  /** The attachment of network `vpc`, the `index`-th given. */
  function Attach(index: nat, vpc: Network, hub: Hub): Attachment {
    Attachment(Numbered(AttachmentPrefix, index),
               seq(|vpc.privateSubnets|, j requires 0 <= j < |vpc.privateSubnets| => vpc.privateSubnets[j].id),
               hub.Ref(), vpc.VpcId())
  }

  /** The `TransitGatewayStack` constructor; `stackId` is the stack's own id and
      `vpcs` has at least two elements. */
  function SynthesizeHub(stackId: string, vpcs: seq<Network>): (stack: TransitGatewayStack)
    requires |vpcs| >= 2
    ensures |stack.attachments| == |vpcs|
    ensures forall i :: 0 <= i < |vpcs| ==>
      var att := stack.attachments[i];
      && att.vpcId == vpcs[i].VpcId()
      && att.transitGatewayId == stack.tgw.Ref()
      && |att.subnetIds| == |vpcs[i].privateSubnets|
      && (forall j :: 0 <= j < |att.subnetIds| ==> att.subnetIds[j] == vpcs[i].privateSubnets[j].id)
    ensures stack.output.value == stack.tgw.Ref() && stack.output.exportName == ExportName
  {
    var tgw := Hub(stackId, TgwConstructId);
    TransitGatewayStack(tgw,
                        seq(|vpcs|, i requires 0 <= i < |vpcs| => Attach(i, vpcs[i], tgw)),
                        Output(OutputConstructId, tgw.Ref(), ExportName))
  }

  /** The exports a hub stack publishes once deployed: export name to value. */
  function Exports(stack: TransitGatewayStack): map<string, ConstructPath> {
    map[stack.output.exportName := stack.output.value]
  }

  /** What `Fn.importValue(name)` stands for once deployed against `exports`;
      `None` when the export does not exist, which makes the deployment fail. */
  function ImportValue(exports: map<string, ConstructPath>, name: string): Option<ConstructPath> {
    if name in exports then Some(exports[name]) else None
  }

  /** The `RoutesToTransitGatewayStack` constructor, for a deployment of the stack:
      `published` holds the export names already deployed, and the gateway's
      export must be among them.  Building the stack alone needs no export. */
  function SynthesizeRoutes(vpcs: seq<Network>, published: set<string>): (stack: RoutesToTransitGatewayStack)
    requires |vpcs| >= 2
    requires ExportName in published
    ensures |stack.routes| == |vpcs[0].privateSubnets| + |vpcs[1].privateSubnets|
    ensures forall r :: r in stack.routes ==>
      r.target == ViaImportedTransitGateway(ExportName) && r.target.exportName in published
  {
    RoutesToTransitGatewayStack(Routing.Bidirectional(vpcs[0], vpcs[1], ViaImportedTransitGateway(ExportName)))
  }

  /** Once the hub stack is deployed the route stack may be deployed against its
      exports, and every route's import resolves to the gateway the hub stack
      created, to which both routed networks are attached. */
  lemma RoutesResolveToHub(hubId: string, vpcs: seq<Network>)
    requires |vpcs| >= 2
    ensures var hub := SynthesizeHub(hubId, vpcs);
      ExportName in Exports(hub).Keys
    ensures var hub := SynthesizeHub(hubId, vpcs);
      var routes := SynthesizeRoutes(vpcs, Exports(hub).Keys).routes;
      forall r :: r in routes ==>
        && r.target.ViaImportedTransitGateway?
        && ImportValue(Exports(hub), r.target.exportName) == Some(hub.tgw.Ref())
    ensures var hub := SynthesizeHub(hubId, vpcs);
      && hub.attachments[0].vpcId == vpcs[0].VpcId() && hub.attachments[0].transitGatewayId == hub.tgw.Ref()
      && hub.attachments[1].vpcId == vpcs[1].VpcId() && hub.attachments[1].transitGatewayId == hub.tgw.Ref()
  {
  }

  /** After the route stack, every private route table of each of the first two
      networks has a route to the other's block through the imported gateway. */
  lemma RoutesConnect(vpcs: seq<Network>, published: set<string>)
    requires |vpcs| >= 2
    requires ExportName in published
    ensures var routes := SynthesizeRoutes(vpcs, published).routes;
      var hub := ViaImportedTransitGateway(ExportName);
      && Routing.ReachesFrom(routes, vpcs[0], vpcs[1], hub)
      && Routing.ReachesFrom(routes, vpcs[1], vpcs[0], hub)
  {
    Routing.BidirectionalReaches(vpcs[0], vpcs[1], ViaImportedTransitGateway(ExportName));
  }

  /** For well-formed first two networks that share no route table: each private
      route table of either holds exactly one route, towards the other's block;
      public route tables hold none. */
  lemma RoutesPlacement(vpcs: seq<Network>, published: set<string>)
    requires |vpcs| >= 2
    requires ExportName in published
    requires WellFormed(vpcs[0]) && WellFormed(vpcs[1]) && Separate(vpcs[0], vpcs[1])
    ensures var routes := SynthesizeRoutes(vpcs, published).routes;
      forall i, k :: 0 <= i < |vpcs[0].privateSubnets| && 0 <= k < |routes| ==>
        (routes[k].routeTable == vpcs[0].privateSubnets[i].routeTable <==> k == i)
    ensures var routes := SynthesizeRoutes(vpcs, published).routes;
      forall i, k :: 0 <= i < |vpcs[1].privateSubnets| && 0 <= k < |routes| ==>
        (routes[k].routeTable == vpcs[1].privateSubnets[i].routeTable
         <==> k == |vpcs[0].privateSubnets| + i)
    ensures var routes := SynthesizeRoutes(vpcs, published).routes;
      forall k :: 0 <= k < |routes| ==>
        && (k < |vpcs[0].privateSubnets| ==> routes[k].destination == vpcs[1].cidr)
        && (k >= |vpcs[0].privateSubnets| ==> routes[k].destination == vpcs[0].cidr)
    ensures forall r :: r in SynthesizeRoutes(vpcs, published).routes ==>
      r.routeTable !in vpcs[0].PublicTables() + vpcs[1].PublicTables()
  {
    Routing.BidirectionalPlacement(vpcs[0], vpcs[1], ViaImportedTransitGateway(ExportName));
  }

  /** A network after the first two is attached to the hub but gets no route:
      none of the routes sits in one of its route tables, and none leads to its
      block unless that block is one of the first two networks' blocks. */
  lemma OnlyFirstTwoRouted(hubId: string, vpcs: seq<Network>, published: set<string>, j: nat)
    requires 2 <= j < |vpcs|
    requires ExportName in published
    requires Separate(vpcs[0], vpcs[j]) && Separate(vpcs[1], vpcs[j])
    ensures SynthesizeHub(hubId, vpcs).attachments[j].vpcId == vpcs[j].VpcId()
    ensures forall r :: r in SynthesizeRoutes(vpcs, published).routes ==>
      r.routeTable !in vpcs[j].PublicTables() + vpcs[j].PrivateTables()
    ensures forall r :: r in SynthesizeRoutes(vpcs, published).routes ==>
      r.destination == vpcs[j].cidr ==> vpcs[j].cidr in {vpcs[0].cidr, vpcs[1].cidr}
  {
    var routes := SynthesizeRoutes(vpcs, published).routes;
    var na := |vpcs[0].privateSubnets|;
    forall r | r in routes
      ensures r.routeTable !in vpcs[j].PublicTables() + vpcs[j].PrivateTables()
      ensures r.destination == vpcs[0].cidr || r.destination == vpcs[1].cidr
    {
      var k :| 0 <= k < |routes| && routes[k] == r;
      Routing.BidirectionalAt(vpcs[0], vpcs[1], ViaImportedTransitGateway(ExportName), k);
      if k < na {
        assert vpcs[0].privateSubnets[k] in vpcs[0].privateSubnets;
        assert r.routeTable in vpcs[0].PrivateTables();
      } else {
        assert vpcs[1].privateSubnets[k - na] in vpcs[1].privateSubnets;
        assert r.routeTable in vpcs[1].PrivateTables();
      }
    }
  }

  /** Every construct id the hub stack declares: the gateway, the attachments in
      order, the output. */
  function HubConstructIds(stack: TransitGatewayStack): seq<string> {
    [stack.tgw.constructId]
    + seq(|stack.attachments|, i requires 0 <= i < |stack.attachments| => stack.attachments[i].constructId)
    + [stack.output.constructId]
  }

  /** No two constructs of the hub stack share an id. */
  lemma HubIdsUnique(hubId: string, vpcs: seq<Network>)
    requires |vpcs| >= 2
    ensures Distinct(HubConstructIds(SynthesizeHub(hubId, vpcs)))
  {
    var stack := SynthesizeHub(hubId, vpcs);
    var ids := HubConstructIds(stack);
    var n := |stack.attachments|;
    assert |ids| == n + 2;
    forall a, b | 0 <= a < b < |ids|
      ensures ids[a] != ids[b]
    {
      if a == 0 && b <= n {
        assert |ids[b]| > |AttachmentPrefix| > |ids[a]|;
      } else if a == 0 {
        assert ids[a][1] != ids[b][1];
      } else if b <= n {
        assert ids[a] == Numbered(AttachmentPrefix, a - 1);
        assert ids[b] == Numbered(AttachmentPrefix, b - 1);
        NumberedInjective(AttachmentPrefix, a - 1, b - 1);
      } else {
        assert ids[a] == Numbered(AttachmentPrefix, a - 1);
        assert ids[a][..|AttachmentPrefix|] == AttachmentPrefix;
        assert ids[a][1] != ids[b][1];
      }
    }
  }

  /** No two routes of the route stack share a construct id. */
  lemma RouteIdsUnique(vpcs: seq<Network>, published: set<string>)
    requires |vpcs| >= 2
    requires ExportName in published
    ensures var routes := SynthesizeRoutes(vpcs, published).routes;
      forall k, l :: 0 <= k < l < |routes| ==> routes[k].constructId != routes[l].constructId
  {
    Routing.BidirectionalIdsUnique(vpcs[0], vpcs[1], ViaImportedTransitGateway(ExportName));
  }

  /** Two networks of `'TestVpcStack'` with the default zone count, joined by
      `'TestTransitGatewayStack'`: one gateway, two attachments both referencing
      that stack's `'Tgw'`, and the id exported as `TransitGatewayId`. */
  lemma HubTwoNetworks()
    ensures var built := Vpc.Synthesize("TestVpcStack", Vpc.VpcSetup(["10.0.1.0/24", "10.0.2.0/24"], None, None)).createdVpcs;
      var stack := SynthesizeHub("TestTransitGatewayStack", [built[0], built[1]]);
      && |stack.attachments| == 2
      && (forall att :: att in stack.attachments ==>
            att.transitGatewayId == ConstructPath("TestTransitGatewayStack", "Tgw") && |att.subnetIds| == 2)
      && stack.output.constructId == "TransitGatewayId"
      && stack.output.exportName == "TransitGatewayId"
  {
  }

  /** Two networks of `'TestVpcStack'` with one zone each: two routes, both
      importing `TransitGatewayId`. */
  lemma RoutesTwoNetworksOneZone()
    ensures var built := Vpc.Synthesize("TestVpcStack", Vpc.VpcSetup(["10.0.1.0/24", "10.0.2.0/24"], Some(1), None)).createdVpcs;
      var stack := SynthesizeRoutes([built[0], built[1]], {ExportName});
      && |stack.routes| == 2
      && forall r :: r in stack.routes ==> r.target == ViaImportedTransitGateway("TransitGatewayId")
  {
  }
}
