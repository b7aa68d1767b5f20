# Network topology synthesis: a Dafny model

This project models the resource-graph synthesis in the `ping-me-cdk-example`
CDK application. Its three stacks turn lists of networks (VPCs) into lists of
resources:

- **`VpcStack`** builds one network per CIDR block. Each network gets a public
  and a private /27 subnet group in every availability zone. Each network's
  default security group gets one ingress rule that admits ICMP ping from
  anywhere.
- **`PeeringStack`** takes exactly two networks and creates one VPC peering
  connection. It adds one route per private route table on each side, towards
  the other network's block, through the connection.
- **`TransitGatewayStack`** creates one transit gateway and attaches every
  given network's private subnets to it. It exports the gateway id under the
  name `TransitGatewayId`.
- **`RoutesToTransitGatewayStack`** adds routes like the peering stack's, but
  only between the first two networks. The routes name the gateway through an
  import of `TransitGatewayId`.

Everything is modelled as immutable datatypes and pure functions:

- `naming.dfy` (module `Naming`): construct ids of the form prefix + loop index,
  with the decimal rendering JavaScript uses, and the proof that this rendering
  can be read back, so is injective.
- `topology.dfy` (module `Topology`): the shared vocabulary:
  - `Network`, `Subnet`, `RouteTableId`, `RouteTarget`, `CfnRoute`;
  - `WellFormed`: subnets in zone order, and a route table of its own for every
    subnet;
  - `Separate`: two networks share no route table.
- `vpc.dfy` (module `Vpc`): `VpcStack`, and an inventory of the CloudFormation
  resource types the stack's tests count.
- `routing.dfy` (module `Routing`): the private-subnet route synthesis that
  `peering.ts` and `tgw.ts` both perform.
- `peering.dfy` (module `Peering`): `PeeringStack`.
- `tgw.dfy` (module `TransitGateway`): both transit-gateway stacks. It also
  models the deployed exports and `Fn.importValue` lookup against them.

Every resource reference (`vpc.vpcId`, `peer.ref`, `tgw.ref`) is modelled by the
construct's path: the id of the stack that declares it and its construct id within
that stack. Two `VpcStack`s may both declare a `'Vpc0'`; their networks are still
different VPCs.

The `ec2.Vpc` construct of the CDK library is treated abstractly. A network is:

- the id of its stack and its construct id, which together identify the VPC;
- its CIDR block;
- its public and private subnets in zone order, each with its own route table
  and one default route;
- the public subnets that host its NAT gateways;
- the VPN connection options it was given.

The model makes these assumptions about the `ec2.Vpc` construct. They are not
derived from the repository's code. The resource counts in the repository's tests
agree with them, but those tests use one zone, no VPN connections, and do not
check where routes point. `Vpc.NetworkCount` encodes the resource counts among
them:

- one internet gateway, with its attachment, per network;
- when `vpnConnections` is given, even as an empty map, a VPN gateway with a
  second gateway attachment;
- one NAT gateway, with an elastic IP, per zone;
- public subnets route to the internet gateway;
- private subnets route to the NAT gateway of their zone.

Facts about the code that shape the model:

- The code performs no validation. There is no overlap check on CIDR blocks and
  no check on the zone count. Routes are declared unconditionally: nothing
  checks for an existing route to the same destination, and no "duplicate
  route" error exists. The model adds none of these checks.
- The transit router always wires `vpcs[0]` and `vpcs[1]`.
  `TransitGateway.OnlyFirstTwoRouted` states the consequence for the other
  attached networks.
- The two-network and at-least-two-network requirements are TypeScript tuple
  types (`lib/peering.ts:5`, `lib/tgw.ts:5`), checked when the program is
  compiled. The model states them as preconditions, not as runtime errors.
- The route stack's dependency on the hub stack exists only through the export
  name. Building the route stack needs no export, but deploying it does.
  `TransitGateway.SynthesizeRoutes` models the route stack as deployed: it
  requires that name to be among the exports already deployed. `TransitGateway.RoutesResolveToHub`
  shows that the hub stack publishes it and that it resolves to the hub's
  gateway.

## Model

| member | source | states |
|---|---|---|
| Naming.Decimal | lib/vpc.ts:25 | The index appended to a construct id renders as a non-empty string of decimal digits with no leading zero: it starts with '0' only for 0, and has two or more digits exactly from 10 up |
| Naming.DigitsValueOfDecimal | lib/vpc.ts:25 | Reading back the digits of a rendered index gives the index: the rendering has an inverse |
| Naming.DecimalInjective | lib/vpc.ts:25 | Different loop indices give different id suffixes |
| Naming.NumberedInjective | lib/vpc.ts:25 | For ids of the form prefix + decimal index (`Numbered`), two ids with the same prefix are equal exactly when their indices are equal |
| Naming.NumberedApart | lib/peering.ts:22-31 | Ids built on prefixes that differ at some shared position never collide, whatever the indices |
| Vpc.Synthesize | lib/vpc.ts:18-50 | One network per CIDR, in input order, carrying its CIDR unchanged and identified as 'Vpc'+index within this stack. Each network gets the same VPN connections, and as many public subnets, private subnets and NAT gateways as maxAzs (2 when omitted). Each network gets one ingress rule: ICMP echo from 0.0.0.0/0 on its default security group |
| Vpc.BuiltNetworksAsConfigured | lib/vpc.ts:28-39 | Every built network has exactly the 'public' (PUBLIC) and 'private' (PRIVATE) groups, both /27, in zone order. Each subnet has its own route table with its type's default egress. Each NAT gateway sits in the public subnet of its zone |
| Vpc.BuiltNetworksSeparate | lib/vpc.ts:18-25 | Two built networks from differently named stacks, or with different indices, are different VPCs and share no route table |
| Vpc.ConstructIdsUnique | lib/vpc.ts:24-46 | The ids 'Vpc'+i and 'DefaultSecurityGroup'+i are pairwise distinct across the whole stack |
| Vpc.OnePingRulePerNetwork | lib/vpc.ts:44-48 | Each network's default security group gets exactly one ingress rule: the one with its own index. Every rule admits ICMP ping from anywhere |
| Vpc.UniformStackCounts | test/ping-me-cdk-example.test.ts:20-47 | A stack of n networks with z zones and g gateway attachments each and one rule per network has per network: one VPC and internet gateway; g gateway attachments; 2z subnets, route tables, associations and routes; z NAT gateways and elastic IPs; one ingress rule |
| Vpc.ResourceCounts | test/ping-me-cdk-example.test.ts:20-47 | The built stack has the resource counts above, with n the number of CIDRs and z the zone count. Each network has one gateway attachment, or two when the setup gives VPN connections |
| Vpc.TwoCidrsOneZone | test/ping-me-cdk-example.test.ts:11-48 | Two CIDRs and one zone give 2 VPCs; 4 subnets, route tables, associations and routes; 2 attached internet gateways; 2 NAT gateways with elastic IPs; 2 ingress rules |
| Vpc.OneCidrOneZoneWithVpn | lib/vpc.ts:24-41 | One CIDR, one zone and one VPN connection give one VPC, one internet gateway, one NAT gateway, two subnets and two gateway attachments |
| Routing.RoutesFromPrivateSubnets | lib/peering.ts:21-27 | One route per private subnet of the source network, in order. Each sits in that subnet's route table, has the other network's CIDR as destination and the given target |
| Routing.Bidirectional | lib/peering.ts:21-36 | The route count is the sum of the two networks' private-subnet counts, and every route uses the given target |
| Routing.RoutesFromPrivateSubnetsReach | lib/peering.ts:21-27 | Every private route table of the source network has a route to the other network's block through the target |
| Routing.BidirectionalReaches | lib/peering.ts:21-36 | Every private route table on either side has a route to the other side's block through the target |
| Routing.ForwardPlacement | lib/peering.ts:21-27 | Each private route table of the first network holds exactly one route: the one with the same index |
| Routing.BackwardPlacement | lib/peering.ts:30-36 | Each private route table of the second network holds exactly one route: the one after the first network's routes with the same index |
| Routing.PublicTablesUntouched | lib/peering.ts:21-36 | No route sits in a public route table of either network |
| Routing.BidirectionalPlacement | lib/peering.ts:21-36 | Routes sit only in private tables, one per private table. Each route's destination is the other network's block. No public table receives a route |
| Routing.BidirectionalIdsUnique | lib/peering.ts:22-31 | The route ids prefix1+i and prefix2+j are pairwise distinct |
| Peering.Synthesize | lib/peering.ts:10-36 | One connection with the first network as requester and the second as peer. The route count is the sum of the two private-subnet counts. Every route targets this call's connection |
| Peering.PeeringConnects | lib/peering.ts:14-36 | After peering, every private route table on each side routes to the other side's block through the connection |
| Peering.PeeringPlacement | lib/peering.ts:21-36 | Each private table on either side gets exactly one route, towards the other network. Public tables get none |
| Peering.PeeringIdsUnique | lib/peering.ts:14-31 | 'Peer' and every route id are pairwise distinct |
| Peering.PeeringBuiltNetworks | lib/peering.ts:5-36 | Peering two VpcStack networks, from one stack at different indices or from differently named stacks, joins two different VPCs. It adds one route per zone of each network. The preconditions for exact placement hold |
| Peering.PeeringTwoNetworksOneZone | test/ping-me-cdk-example.test.ts:82-105 | Two one-zone networks give two routes, both through the peering stack's 'Peer' |
| TransitGateway.SynthesizeHub | lib/tgw.ts:10-30 | One attachment per network, in order. Each references the hub and its network's VPC, and lists exactly that network's private subnet ids in order. The output exports the hub's id as 'TransitGatewayId' |
| TransitGateway.SynthesizeRoutes | lib/tgw.ts:35-56 | Needs at least two networks and, as deployed, the export already deployed. Gives the sum of the first two networks' private-subnet counts in routes. Every route imports 'TransitGatewayId' |
| TransitGateway.RoutesResolveToHub | lib/tgw.ts:26-55 | The hub stack publishes the name the route stack imports, so the route stack can be built against it. Every route's import resolves to the hub's gateway, to which both routed networks are attached |
| TransitGateway.RoutesConnect | lib/tgw.ts:40-55 | Every private route table of each of the first two networks routes to the other's block through the imported gateway |
| TransitGateway.RoutesPlacement | lib/tgw.ts:40-55 | Each private table of the first two networks gets exactly one route, towards the other. Public tables get none |
| TransitGateway.OnlyFirstTwoRouted | lib/tgw.ts:17-55 | A network at index 2 or above is attached to the hub. No route sits in any of its tables, and no route leads to its block unless that block is one of the first two |
| TransitGateway.HubIdsUnique | lib/tgw.ts:14-29 | 'Tgw', 'TgwVpcAttachment'+i and 'TransitGatewayId' are pairwise distinct |
| TransitGateway.RouteIdsUnique | lib/tgw.ts:40-55 | The route stack's construct ids are pairwise distinct |
| TransitGateway.HubTwoNetworks | test/ping-me-cdk-example.test.ts:189-215 | Two default-zone networks give two attachments, each referencing the hub stack's 'Tgw' with two subnets, and an output named and exported 'TransitGatewayId' |
| TransitGateway.RoutesTwoNetworksOneZone | test/ping-me-cdk-example.test.ts:219-239 | Two one-zone networks give two routes, each importing 'TransitGatewayId' |

## Left out

- `lib/cgd.ts` (the customer gateway device) is not modelled. Its user-data
  script, IAM role and AMI lookup are fixed configuration handed to the CDK
  library. Its `sourceDestCheck: false` is a literal, not behaviour.
- `lib/instance.ts` is not modelled. It is a thin wrapper over
  `ec2.BastionHostLinux`.
- `bin/ping-me-cdk-example.ts` is not modelled. It is scenario wiring with
  fixed CIDRs and a fixed public IP.
- Inside `ec2.Vpc`, the following are not modelled:
  - the address ranges carved for the /27 subnets (only the mask is kept);
  - the choice of availability zones;
  - capping `maxAzs` by the zones the region offers;
  - the resources VPN connections bring (VPN gateway, customer gateway,
    connection, route propagation), except the VPN gateway's attachment, which
    the inventory counts.
- The inventory covers only the resource types the tests count.
- Vpc.Synthesize: states the zone count as `maxAzs`, or 2 when it is omitted,
  as the stack's own comment says. The library's default is 3, limited to the
  zones the stack's environment offers.
- CloudFormation rendering and deployment are not modelled. That covers logical
  ids, `Ref`/`Fn::ImportValue` tokens and the order stacks deploy in. A reference
  is modelled by the construct's path, and an import by a lookup in the map of
  deployed exports. Deployment is reduced to a precondition: the export is
  deployed before the route stack is deployed.
- Validation that the code does not perform is not modelled: CIDR overlap, zone
  count positivity, duplicate or conflicting routes. Re-running the route stack
  therefore yields the same routes again, with no error.
