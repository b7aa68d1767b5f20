/** Route synthesis shared by the peering and transit-gateway stacks: for every
private subnet of one network, one route in that subnet's route table to the other
network's CIDR block through a given target; then the same the other way round.
Only `privateSubnets` are walked, so public route tables never receive a route.
 */
module Routing {
  import opened Naming
  import opened Topology

  const ForwardPrefix: string := "RouteFromPrivateSubnetOfVpc1ToVpc2"
  const BackwardPrefix: string := "RouteFromPrivateSubnetOfVpc2ToVpc1"

  /** `from.privateSubnets.forEach((subnet, index) => new ec2.CfnRoute(this,
      prefix + index, {...}))`. */
  function RoutesFromPrivateSubnets(prefix: string, from: Network, to: Network, target: RouteTarget): (routes: seq<CfnRoute>)
    ensures |routes| == |from.privateSubnets|
    ensures forall k :: 0 <= k < |routes| ==>
      && routes[k].routeTable == from.privateSubnets[k].routeTable
      && routes[k].destination == to.cidr
      && routes[k].target == target
  {
    seq(|from.privateSubnets|, k requires 0 <= k < |from.privateSubnets| =>
      CfnRoute(Numbered(prefix, k), from.privateSubnets[k].routeTable, to.cidr, target))
  }

  /** The routes both connector stacks declare between `a` (the first network) and
      `b` (the second): first every private table of `a`, then every private table
      of `b`. */
  function Bidirectional(a: Network, b: Network, target: RouteTarget): (routes: seq<CfnRoute>)
    ensures |routes| == |a.privateSubnets| + |b.privateSubnets|
    ensures forall r :: r in routes ==> r.target == target
  {
    RoutesFromPrivateSubnets(ForwardPrefix, a, b, target)
    + RoutesFromPrivateSubnets(BackwardPrefix, b, a, target)
  }

  /** True iff every private route table of `from` holds a route towards `to`'s
      block through `target`. */
  predicate ReachesFrom(routes: seq<CfnRoute>, from: Network, to: Network, target: RouteTarget) {
    forall i :: 0 <= i < |from.privateSubnets| ==>
      HasRoute(routes, from.privateSubnets[i].routeTable, to.cidr, target)
  }

  /** True iff some route sits in `table` and forwards `destination` to `target`. */
  predicate HasRoute(routes: seq<CfnRoute>, table: RouteTableId, destination: Cidr, target: RouteTarget) {
    exists k :: 0 <= k < |routes| && Serves(routes[k], table, destination, target)
  }

  /** True iff `r` sits in `table` and forwards `destination` to `target`. */
  predicate Serves(r: CfnRoute, table: RouteTableId, destination: Cidr, target: RouteTarget) {
    r.routeTable == table && r.destination == destination && r.target == target
  }

  /** Routes walked from `from`'s private subnets reach `to` from every one. */
  lemma RoutesFromPrivateSubnetsReach(prefix: string, from: Network, to: Network, target: RouteTarget)
    ensures ReachesFrom(RoutesFromPrivateSubnets(prefix, from, to, target), from, to, target)
  {
    var routes := RoutesFromPrivateSubnets(prefix, from, to, target);
    forall i | 0 <= i < |from.privateSubnets|
      ensures HasRoute(routes, from.privateSubnets[i].routeTable, to.cidr, target)
    {
      assert Serves(routes[i], from.privateSubnets[i].routeTable, to.cidr, target);
    }
  }

  /** Adding routes keeps every route that was there. */
  lemma ReachesFromConcat(xs: seq<CfnRoute>, ys: seq<CfnRoute>, from: Network, to: Network, target: RouteTarget)
    requires ReachesFrom(xs, from, to, target) || ReachesFrom(ys, from, to, target)
    ensures ReachesFrom(xs + ys, from, to, target)
  {
    var routes := xs + ys;
    forall i | 0 <= i < |from.privateSubnets|
      ensures HasRoute(routes, from.privateSubnets[i].routeTable, to.cidr, target)
    {
      var table := from.privateSubnets[i].routeTable;
      if ReachesFrom(xs, from, to, target) {
        assert HasRoute(xs, table, to.cidr, target);
        var k :| 0 <= k < |xs| && Serves(xs[k], table, to.cidr, target);
        assert routes[k] == xs[k];
      } else {
        assert HasRoute(ys, table, to.cidr, target);
        var k :| 0 <= k < |ys| && Serves(ys[k], table, to.cidr, target);
        assert routes[|xs| + k] == ys[k];
      }
    }
  }

  /** The routes connect the two networks both ways: every private route table on
      either side has a route to the other side's block through `target`. */
  lemma BidirectionalReaches(a: Network, b: Network, target: RouteTarget)
    ensures ReachesFrom(Bidirectional(a, b, target), a, b, target)
    ensures ReachesFrom(Bidirectional(a, b, target), b, a, target)
  {
    var forward := RoutesFromPrivateSubnets(ForwardPrefix, a, b, target);
    var backward := RoutesFromPrivateSubnets(BackwardPrefix, b, a, target);
    RoutesFromPrivateSubnetsReach(ForwardPrefix, a, b, target);
    RoutesFromPrivateSubnetsReach(BackwardPrefix, b, a, target);
    ReachesFromConcat(forward, backward, a, b, target);
    ReachesFromConcat(forward, backward, b, a, target);
  }

  /** The `k`-th route of `Bidirectional`: the forward routes, then the backward. */
  lemma BidirectionalAt(a: Network, b: Network, target: RouteTarget, k: nat)
    requires k < |a.privateSubnets| + |b.privateSubnets|
    ensures var r := Bidirectional(a, b, target)[k];
      var na := |a.privateSubnets|;
      if k < na then
        r.routeTable == a.privateSubnets[k].routeTable && r.destination == b.cidr
      else
        r.routeTable == b.privateSubnets[k - na].routeTable && r.destination == a.cidr
  {
    var na := |a.privateSubnets|;
    var forward := RoutesFromPrivateSubnets(ForwardPrefix, a, b, target);
    var backward := RoutesFromPrivateSubnets(BackwardPrefix, b, a, target);
    if k < na {
      assert Bidirectional(a, b, target)[k] == forward[k];
    } else {
      assert Bidirectional(a, b, target)[k] == backward[k - na];
    }
  }

  /** Private subnets of separate networks have different route tables. */
  lemma SeparateTables(a: Network, b: Network, i: nat, j: nat)
    requires Separate(a, b)
    requires i < |a.privateSubnets| && j < |b.privateSubnets|
    ensures a.privateSubnets[i].routeTable != b.privateSubnets[j].routeTable
  {
    assert a.privateSubnets[i] in a.privateSubnets;
    assert b.privateSubnets[j] in b.privateSubnets;
    assert a.privateSubnets[i].routeTable in a.PrivateTables();
    assert b.privateSubnets[j].routeTable in b.PrivateTables();
  }

  /** Each private route table of `a` holds exactly one of the routes, the one
      towards `b`'s block. */
  lemma ForwardPlacement(a: Network, b: Network, target: RouteTarget)
    requires WellFormed(a) && Separate(a, b)
    ensures var routes := Bidirectional(a, b, target);
      forall i, k :: 0 <= i < |a.privateSubnets| && 0 <= k < |routes| ==>
        (routes[k].routeTable == a.privateSubnets[i].routeTable <==> k == i)
  {
    var routes := Bidirectional(a, b, target);
    var na := |a.privateSubnets|;
    forall i, k | 0 <= i < na && 0 <= k < |routes|
      ensures routes[k].routeTable == a.privateSubnets[i].routeTable <==> k == i
    {
      BidirectionalAt(a, b, target, k);
      if k < na {
        PrivateTablesDistinct(a, i, k);
      } else {
        SeparateTables(a, b, i, k - na);
      }
    }
  }

  /** Each private route table of `b` holds exactly one of the routes, the one
      towards `a`'s block. */
  lemma BackwardPlacement(a: Network, b: Network, target: RouteTarget)
    requires WellFormed(b) && Separate(a, b)
    ensures var routes := Bidirectional(a, b, target);
      forall i, k :: 0 <= i < |b.privateSubnets| && 0 <= k < |routes| ==>
        (routes[k].routeTable == b.privateSubnets[i].routeTable <==> k == |a.privateSubnets| + i)
  {
    var routes := Bidirectional(a, b, target);
    var na := |a.privateSubnets|;
    forall i, k | 0 <= i < |b.privateSubnets| && 0 <= k < |routes|
      ensures routes[k].routeTable == b.privateSubnets[i].routeTable <==> k == na + i
    {
      BidirectionalAt(a, b, target, k);
      if k < na {
        SeparateTables(a, b, k, i);
      } else {
        PrivateTablesDistinct(b, i, k - na);
      }
    }
  }

  /** No public route table of either network receives a route. */
  lemma PublicTablesUntouched(a: Network, b: Network, target: RouteTarget)
    requires WellFormed(a) && WellFormed(b) && Separate(a, b)
    ensures forall r :: r in Bidirectional(a, b, target) ==>
      r.routeTable !in a.PublicTables() + b.PublicTables()
  {
    var routes := Bidirectional(a, b, target);
    var na := |a.privateSubnets|;
    forall r | r in routes
      ensures r.routeTable !in a.PublicTables() + b.PublicTables()
    {
      var k :| 0 <= k < |routes| && routes[k] == r;
      BidirectionalAt(a, b, target, k);
      if k < na {
        PrivateNotPublic(a, k);
        PrivateNotPublicOf(a, b, k);
      } else {
        PrivateNotPublic(b, k - na);
        PrivateNotPublicOf(b, a, k - na);
      }
    }
  }

  /** Full private-subnet reachability between `a` and `b`: each private route
      table of `a` holds exactly one route, towards `b`'s block, and each private
      route table of `b` exactly one, towards `a`'s block; no public route table
      of either network gets any. */
  lemma BidirectionalPlacement(a: Network, b: Network, target: RouteTarget)
    requires WellFormed(a) && WellFormed(b) && Separate(a, b)
    ensures var routes := Bidirectional(a, b, target);
      forall i, k :: 0 <= i < |a.privateSubnets| && 0 <= k < |routes| ==>
        (routes[k].routeTable == a.privateSubnets[i].routeTable <==> k == i)
    ensures var routes := Bidirectional(a, b, target);
      forall i, k :: 0 <= i < |b.privateSubnets| && 0 <= k < |routes| ==>
        (routes[k].routeTable == b.privateSubnets[i].routeTable <==> k == |a.privateSubnets| + i)
    ensures var routes := Bidirectional(a, b, target);
      forall k :: 0 <= k < |routes| ==>
        && (k < |a.privateSubnets| ==> routes[k].destination == b.cidr)
        && (k >= |a.privateSubnets| ==> routes[k].destination == a.cidr)
    ensures forall r :: r in Bidirectional(a, b, target) ==>
      r.routeTable !in a.PublicTables() + b.PublicTables()
  {
    ForwardPlacement(a, b, target);
    BackwardPlacement(a, b, target);
    PublicTablesUntouched(a, b, target);
    forall k | 0 <= k < |a.privateSubnets| + |b.privateSubnets| {
      BidirectionalAt(a, b, target, k);
    }
  }

  /** Distinct private subnets of a well-formed network have distinct tables. */
  lemma PrivateTablesDistinct(n: Network, i: nat, j: nat)
    requires WellFormed(n)
    requires i < |n.privateSubnets| && j < |n.privateSubnets|
    ensures n.privateSubnets[i].routeTable == n.privateSubnets[j].routeTable <==> i == j
  {
    var p := |n.publicSubnets|;
    assert n.RouteTables()[p + i] == n.privateSubnets[i].routeTable;
    assert n.RouteTables()[p + j] == n.privateSubnets[j].routeTable;
  }

  /** A private subnet's table is not the table of any public subnet. */
  lemma PrivateNotPublic(n: Network, i: nat)
    requires WellFormed(n)
    requires i < |n.privateSubnets|
    ensures n.privateSubnets[i].routeTable !in n.PublicTables()
  {
    var p := |n.publicSubnets|;
    forall j | 0 <= j < p
      ensures n.publicSubnets[j].routeTable != n.privateSubnets[i].routeTable
    {
      assert n.RouteTables()[j] == n.publicSubnets[j].routeTable;
      assert n.RouteTables()[p + i] == n.privateSubnets[i].routeTable;
    }
  }

  /** Private subnets of `a` use no public route table of a network separate
      from `a`. */
  lemma PrivateNotPublicOf(a: Network, b: Network, i: nat)
    requires i < |a.privateSubnets|
    ensures Separate(a, b) ==> a.privateSubnets[i].routeTable !in b.PublicTables()
  {
    assert a.privateSubnets[i] in a.privateSubnets;
    assert a.privateSubnets[i].routeTable in a.PrivateTables();
  }

  /** Every route id starts with one of the two prefixes, so with `'R'`. */
  lemma BidirectionalIdHead(a: Network, b: Network, target: RouteTarget, k: nat)
    requires k < |a.privateSubnets| + |b.privateSubnets|
    ensures var id := Bidirectional(a, b, target)[k].constructId;
      |id| > 0 && id[0] == 'R'
  {
    var na := |a.privateSubnets|;
    var id := Bidirectional(a, b, target)[k].constructId;
    if k < na {
      assert id == Numbered(ForwardPrefix, k);
      assert id[..|ForwardPrefix|] == ForwardPrefix;
    } else {
      assert id == Numbered(BackwardPrefix, k - na);
      assert id[..|BackwardPrefix|] == BackwardPrefix;
    }
  }

  /** No two routes of one connector stack share a construct id. */
  lemma BidirectionalIdsUnique(a: Network, b: Network, target: RouteTarget)
    ensures var routes := Bidirectional(a, b, target);
      forall k, l :: 0 <= k < l < |routes| ==> routes[k].constructId != routes[l].constructId
  {
    var routes := Bidirectional(a, b, target);
    var na := |a.privateSubnets|;
    assert Diverge(ForwardPrefix, BackwardPrefix) by {
      assert ForwardPrefix[27] != BackwardPrefix[27];
    }
    forall k, l | 0 <= k < l < |routes|
      ensures routes[k].constructId != routes[l].constructId
    {
      if l < na {
        assert routes[k].constructId == Numbered(ForwardPrefix, k);
        assert routes[l].constructId == Numbered(ForwardPrefix, l);
        NumberedInjective(ForwardPrefix, k, l);
      } else if k < na {
        assert routes[k].constructId == Numbered(ForwardPrefix, k);
        assert routes[l].constructId == Numbered(BackwardPrefix, l - na);
        NumberedApart(ForwardPrefix, BackwardPrefix, k, l - na);
      } else {
        assert routes[k].constructId == Numbered(BackwardPrefix, k - na);
        assert routes[l].constructId == Numbered(BackwardPrefix, l - na);
        NumberedInjective(BackwardPrefix, k - na, l - na);
      }
    }
  }
}
