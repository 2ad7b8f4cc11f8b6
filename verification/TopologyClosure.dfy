/** When routing closure fails: the other half of the condition on the prefixes. */
module TopologyClosures {
  import opened Common
  import opened Cidrs
  import opened NorthDb
  import opened Builders
  import opened Topology
  import opened TopologyDb
  import opened TopologyRun

  /** A network of at most two addresses has its lower gateway below it. */
  lemma SmallGateway(c: Cidr, k: nat)
    requires 31 <= c.len
    ensures c.At(k).Size() <= 2 && c.At(k).Gateway(2) < c.At(k).base
  {
    if c.len == 31 {
      assert Pow2(1) == 2;
    }
  }

  /** The switch ports of two adjacent router ports are on the switch that their names say. */
  lemma AdjacentSides(env: Env, d: Db, ports: nat, q: Name, o: Name)
    requires Shaped(env, d, ports) && Adjacent(d, q, o)
    ensures SideSwitch(q) == SideSwitch(o)
  {
    hide LrpShaped, Managed;
    var p, u :| Names(d, p, q) && Names(d, u, o) && d.lsps[p].switch == d.lsps[u].switch;
    assert LspShaped(env, d.lsps[p]) && LspShaped(env, d.lsps[u]);
  }

  /** What leads out of a chassis is on an external switch. */
  lemma BridgedSide(env: Env, d: Db, out: Outside, ports: nat, q: Name, h: ExtHost)
    requires Shaped(env, d, ports) && Bridged(d, out, q, h)
    ensures SideSwitch(q).ExtSwitch? && d.lrps[q].router.GwRouter?
    ensures h.container in out.mappings && out.mappings[h.container] == env.g.physnet
  {
    hide LrpShaped, Managed;
    var p, u :| Names(d, p, q) && u in d.lsps && d.lsps[u].kind.Localnet? && d.lsps[p].switch == d.lsps[u].switch
                && d.lsps[u].physnet == Some(out.mappings[h.container]);
    assert LspShaped(env, d.lsps[p]) && LspShaped(env, d.lsps[u]);
  }

  /** With join subnets smaller than a /30 the cluster router's route to a gateway router leads nowhere. */
  lemma JoinRouteOpen(env: Env, out: Outside, d: Db, ports: nat, k: nat, router: Name, dst: Cidr)
    requires Shaped(env, d, ports) && router.Random? && 31 <= env.g.startGw.len && env.g.startGw.Gateway(2) >= 0
    ensures !RouteClosed(d, out, Route(router, dst, env.Gw(k).Gateway(2), true))
  {
    hide Shaped, Managed, Bridged, Adjacent, Cidr.At;
    var r := Route(router, dst, env.Gw(k).Gateway(2), true);
    forall q | Via(d, out, r, q)
      ensures false
    {
      LrpAt(env, d, ports, q);
      if o :| o in d.lrps && d.lrps[o].router != router && d.lrps[o].net.ip == r.nextHop && Adjacent(d, q, o) {
        LrpAt(env, d, ports, o);
        AdjacentSides(env, d, ports, q, o);
        JoinPeersApart(env, d, ports, q, o, r.nextHop);
      } else {
        var h :| h in out.hosts && h.ip == r.nextHop && h.defaultGw == d.lrps[q].net.ip && Bridged(d, out, q, h);
        BridgedSide(env, d, out, ports, q, h);
      }
    }
  }

  lemma LrpAt(env: Env, d: Db, ports: nat, q: Name)
    requires Shaped(env, d, ports) && q in d.lrps
    ensures LrpShaped(env, q, d.lrps[q])
  {
  }

  /** The one neighbour on a join switch is outside its subnet. */
  lemma JoinPeersApart(env: Env, d: Db, ports: nat, q: Name, o: Name, hop: int)
    requires Shaped(env, d, ports) && q in d.lrps && o in d.lrps && d.lrps[q].router.Random?
    requires d.lrps[o].router != d.lrps[q].router && SideSwitch(q) == SideSwitch(o)
    requires LrpShaped(env, q, d.lrps[q]) && LrpShaped(env, o, d.lrps[o])
    requires 31 <= env.g.startGw.len && env.g.startGw.Gateway(2) >= 0
    ensures !(d.lrps[q].net.Contains(hop) && d.lrps[o].net.ip == hop)
  {
    hide Shaped, Cidr.At, Cidr.Size;
    if q.Rpj? {
      var j: nat :| q.net == env.Gw(j);
      SmallGateway(env.g.startGw, j);
      SameLast(q.net);
      GatewayGrows(env.g.startGw, j, 2);
      assert o == Grpj(q.net);
    }
  }

  /** An address on a network's interface has the network's bounds. */
  lemma SameLast(c: Cidr)
    ensures c.Iface(1).base == c.base && c.Iface(1).Last() == c.Last() && c.Iface(2).Last() == c.Last()
  {
  }

  /** No chassis maps the network name to br-ex. */
  predicate Unmapped(out: Outside, physnet: string) {
    forall c | c in out.mappings :: out.mappings[c] != physnet
  }

  /** Nothing leads out of an external switch whose network name is not mapped. */
  lemma ExternalPortOpen(env: Env, out: Outside, d: Db, ports: nat, q: Name, r: Route)
    requires Shaped(env, d, ports) && Unmapped(out, env.g.physnet) && q.Grpe?
    ensures !Via(d, out, r, q)
  {
    hide Shaped, Managed, Bridged, Adjacent;
    if Via(d, out, r, q) {
      LrpAt(env, d, ports, q);
      if o :| o in d.lrps && d.lrps[o].router != r.router && d.lrps[o].net.ip == r.nextHop && Adjacent(d, q, o) {
        LrpAt(env, d, ports, o);
        AdjacentSides(env, d, ports, q, o);
      } else {
        var h :| h in out.hosts && h.ip == r.nextHop && h.defaultGw == d.lrps[q].net.ip && Bridged(d, out, q, h);
        BridgedSide(env, d, out, ports, q, h);
      }
    }
  }

  /** With external subnets smaller than a /30, or localnet ports of a network name that no chassis maps, a
      default route leads somewhere only if its next hop happens to be the cluster router's address on the
      join subnet. */
  lemma DefaultRouteOpen(env: Env, out: Outside, d: Db, ports: nat, k: nat)
    requires Shaped(env, d, ports) && env.g.startGw.Gateway(1) >= 0
    requires 31 <= env.g.startExt.len || Unmapped(out, env.g.physnet)
    requires RouteClosed(d, out, Route(GwRouter(env.Gw(k)), DEFAULT_ROUTE, env.Ext(k).Gateway(2), false))
    ensures env.Gw(k).Gateway(1) == env.Ext(k).Gateway(2)
  {
    hide Shaped, Managed, Bridged, Adjacent, Unmapped, Cidr.At, Cidr.Size;
    var g, e := env.Gw(k), env.Ext(k);
    var r := Route(GwRouter(g), DEFAULT_ROUTE, e.Gateway(2), false);
    var q :| Via(d, out, r, q);
    LrpAt(env, d, ports, q);
    SameLast(e);
    GatewayGrows(env.g.startGw, k, 1);
    if q.Grpe? {
      if env.g.startExt.len < 31 {
        ExternalPortOpen(env, out, d, ports, q, r);
      }
      SmallGateway(env.g.startExt, k);
      var j: nat :| q.net == env.Ext(j) && d.lrps[q] == Lrp(GwRouter(env.Gw(j)), q.net.Iface(1));
      if j != k {
        NextDisjoint(env.g.startGw, j, k);
      }
      assert false;
    }
    assert q == Grpj(g);
    if o :| o in d.lrps && d.lrps[o].router != r.router && d.lrps[o].net.ip == r.nextHop && Adjacent(d, q, o) {
      LrpAt(env, d, ports, o);
      AdjacentSides(env, d, ports, q, o);
      assert o == Rpj(g);
    } else {
      var h :| h in out.hosts && h.ip == r.nextHop && h.defaultGw == d.lrps[q].net.ip && Bridged(d, out, q, h);
      BridgedSide(env, d, out, ports, q, h);
    }
  }

  // ---- the condition

  /** The routes of gateway m of iteration t. */
  lemma GatewayRoutes(env: Env, d: Db, n: nat, t: nat, m: nat) returns (router: Name)
    requires AllGateways(env, d, n) && env.cfg.gateways == Some(env.g) && env.Valid()
    requires t < n && m < |Assigned(env.cfg.amount, env.routers, env.cfg.npr)|
    ensures var k := First(env.cfg, t) + m;
            && Route(GwRouter(env.Gw(k)), DEFAULT_ROUTE, env.Ext(k).Gateway(2), false) in d.routes
            && router.Random? && Route(router, env.Net(k), env.Gw(k).Gateway(2), true) in d.routes
  {
    var f, a := First(env.cfg, t), env.cfg.amount;
    var owners := Assigned(a, env.routers, env.cfg.npr);
    AssignedFits(a, env.routers, env.cfg.npr);
    AssignedMember(a, env.routers, env.cfg.npr);
    hide Assigned, Cidr.At, First, Cidr.Gateway;
    var nets := Lswitches(env.Net(f), a);
    DpAt(env, f, nets, owners, m);
    router := owners[m];
    assert router in owners;
    var dps := RoutedDps(env.cfg, env.routers, f);
    assert HasGateways(env, d, f, dps) && Served(d, dps[m], env.g.cluster);
  }

  /** Whether a run makes a single gateway. */
  predicate OneGateway(cfg: RoutedConfig, routers: seq<Name>, n: nat) {
    n == 1 && Min(cfg.amount, |routers| * cfg.npr) == 1
  }

  lemma SecondGateway(cfg: RoutedConfig, routers: seq<Name>, n: nat) returns (t: nat, m: nat)
    requires MakesGateways(cfg, routers) && n > 0 && !OneGateway(cfg, routers, n)
    ensures t < n && m < |Assigned(cfg.amount, routers, cfg.npr)| && First(cfg, t) + m > 0
  {
    AssignedLength(cfg.amount, routers, cfg.npr);
    FactorGrows(cfg.npr, |routers|);
    if n > 1 {
      t, m := 1, 0;
    } else {
      t, m := 0, 1;
      assert First(cfg, 0) == 0;
    }
  }

  /** Aligned networks of one size never meet that way. */
  lemma SizesDiffer(g: Cidr, e: Cidr)
    requires g.Valid() && e.Valid() && g.len <= 30 && g.Gateway(1) == e.Gateway(2)
    ensures g.Size() != e.Size()
  {
    PowMonotone(2, 32 - g.len);
    assert Pow2(2) == 4;
    hide Cidr.Size;
    if g.Size() == e.Size() {
      NotAligned(g.base, g.Size());
    }
  }

  lemma NotAligned(a: nat, s: nat)
    requires s >= 2 && a % s == 0
    ensures (a + 1) % s != 0
  {
    assert a == s * (a / s);
    DivModUnique(a + 1, s, a / s, 1);
  }

  /** Two chains of different sizes meet at one index at most. */
  lemma MeetOnce(g: Cidr, e: Cidr, k: nat)
    requires g.Size() != e.Size() && k > 0
    requires g.At(0).Gateway(1) == e.At(0).Gateway(2)
    ensures g.At(k).Gateway(1) != e.At(k).Gateway(2)
  {
    SizeAt(g, 0);
    SizeAt(g, k);
    SizeAt(e, 0);
    SizeAt(e, k);
    hide Cidr.Size;
    Apart(k, g.Size(), e.Size());
  }

  lemma Apart(k: nat, s: nat, t: nat)
    requires k > 0 && s != t
    ensures k * s != k * t
  {
    MulOrder(t, s, k);
    MulOrder(s, t, k);
  }

  /** The gateways of a fitting first iteration have addresses. */
  lemma StartGateways(cfg: RoutedConfig, routers: seq<Name>, sandboxes: seq<Sandbox>)
    requires MakesGateways(cfg, routers) && RoutedFits(cfg, routers, sandboxes, First(cfg, 0))
    ensures cfg.gateways.value.startGw.Gateway(2) >= 0 && cfg.gateways.value.startExt.Gateway(2) >= 0
    ensures cfg.gateways.value.startGw.At(0).Gateway(1) == cfg.gateways.value.startGw.Gateway(1)
    ensures cfg.gateways.value.startExt.At(0).Gateway(2) == cfg.gateways.value.startExt.Gateway(2)
  {
    OwnersIff(cfg, routers);
    hide NetworksFit, LportsFit, Assigned;
    assert First(cfg, 0) == 0;
  }

  /** The one gateway of a run, if the chains happen to meet there: its default route leads back to the
      cluster router. */
  lemma MetClosed(env: Env, out: Outside, d: Db, end: nat)
    requires AllWired(env, d, end) && env.g.startGw.Valid() && env.g.startGw.len <= 30
    requires env.Gw(0).Gateway(1) == env.Ext(0).Gateway(2)
    requires forall k: nat | k < end && env.Owner(k).Some? :: k == 0
    ensures AllClosed(out, d)
  {
    hide RouteClosed, Built, HasPhynet, Cidr.At, Cidr.Next, Env.Owner;
    forall r | r in d.routes
      ensures RouteClosed(d, out, r)
    {
      assert RouteWired(env, d, r, end);
      var k: nat, dp :| k < end && r in RoutesOf(dp, env.g.cluster) && WiredAt(env, d, k, dp);
      assert k == 0;
      GatewayInside(env.g.startGw, 0);
      JoinedClosed(out, d, dp.router, env.Gw(0), env.Ext(0), env.Box(0), DEFAULT_ROUTE, false);
      JoinedClosed(out, d, dp.router, env.Gw(0), env.Ext(0), env.Box(0), env.g.cluster, false);
      JoinedClosed(out, d, dp.router, env.Gw(0), env.Ext(0), env.Box(0), dp.network.cidr, true);
    }
  }

  lemma OnlyFirstRouted(env: Env, n: nat)
    requires OneGateway(env.cfg, env.routers, n)
    ensures forall k: nat | k < First(env.cfg, n) && env.Owner(k).Some? :: k == 0
  {
    hide RouterOf;
    assert First(env.cfg, 1) == env.cfg.amount;
    forall k: nat | k < env.cfg.amount && env.Owner(k).Some?
      ensures k == 0
    {
      DivModUnique(k, env.cfg.amount, 0, k);
      RouterOfIff(env.cfg, env.routers, k);
    }
  }

  /** Every route of a run that makes a gateway is closed exactly when both prefixes are at most /30 and the
      chassis map the network name that the localnet ports have; or, by an accident that only a single
      gateway can have, when the default route's next hop is the cluster router's address on the join
      subnet. */
  lemma RoutingClosureIff(cfg: RoutedConfig, routers: seq<Name>, sandboxes: seq<Sandbox>, mapped: string, n: nat)
    requires RandomNames(routers) && InFarmOrder(sandboxes) && |sandboxes| > 0 && n > 0
    requires MakesGateways(cfg, routers) && Accepted(cfg, routers)
    requires cfg.gateways.value.startGw.Valid() && cfg.gateways.value.startExt.Valid()
    requires forall t | 0 <= t < n :: RoutedFits(cfg, routers, sandboxes, First(cfg, t))
    ensures var r, g := ApplyAll(Start(routers), RunCmds(cfg, routers, sandboxes, n)), cfg.gateways.value;
            && r.Success?
            && (AllClosed(OutsideOf(sandboxes, g.startExt, mapped, First(cfg, n)), r.value)
                <==> g.startGw.len <= 30
                     && ((g.startExt.len <= 30 && g.physnet == mapped)
                         || (OneGateway(cfg, routers, n) && g.startGw.Gateway(1) == g.startExt.Gateway(2))))
  {
    hide ApplyAll, RunCmds, RoutedFits, AllClosed, AllInPlace, AllGateways, PeerIntegrity, Start, AllWired, Accepted, Shaped,
         NetsThere, Peered, First, InFarmOrder, Cidr.Valid;
    var g, env := cfg.gateways.value, EnvOf(cfg, routers, sandboxes);
    PeersInEveryRun(cfg, routers, sandboxes, n);
    var d := ApplyAll(Start(routers), RunCmds(cfg, routers, sandboxes, n)).value;
    var out := OutsideOf(sandboxes, g.startExt, mapped, First(cfg, n));
    if g.physnet != mapped {
      assert Unmapped(out, g.physnet);
    }
    hide OutsideOf, Unmapped;
    if g.startGw.len <= 30 && g.startExt.len <= 30 && g.physnet == mapped {
      RoutingClosure(cfg, routers, sandboxes, mapped, n);
    } else {
      assert RoutedFits(cfg, routers, sandboxes, First(cfg, 0));
      StartGateways(cfg, routers, sandboxes);
      ClosureOtherwise(cfg, env, d, n, out);
    }
  }

  lemma ClosureOtherwise(cfg: RoutedConfig, env: Env, d: Db, n: nat, out: Outside)
    requires env.cfg == cfg && cfg.gateways == Some(env.g) && env.Valid() && n > 0 && MakesGateways(cfg, env.routers)
    requires AllGateways(env, d, n) && AllWired(env, d, First(cfg, n)) && Shaped(env, d, First(cfg, n))
    requires env.g.startGw.Valid() && env.g.startExt.Valid() && env.g.startGw.Gateway(2) >= 0
    requires env.Gw(0).Gateway(1) == env.g.startGw.Gateway(1) && env.Ext(0).Gateway(2) == env.g.startExt.Gateway(2)
    requires env.g.startGw.len > 30 || env.g.startExt.len > 30 || Unmapped(out, env.g.physnet)
    ensures AllClosed(out, d)
            <==> env.g.startGw.len <= 30 && OneGateway(cfg, env.routers, n)
                 && env.g.startGw.Gateway(1) == env.g.startExt.Gateway(2)
  {
    hide AllGateways, AllWired, Shaped, First, RouteClosed, Assigned, Cidr.At, Cidr.Valid, Cidr.Size, OneGateway, Unmapped;
    OwnersIff(cfg, env.routers);
    FirstStep(cfg, 0);
    var router := GatewayRoutes(env, d, n, 0, 0);
    if env.g.startGw.len > 30 {
      JoinRouteOpen(env, out, d, First(cfg, n), 0, router, env.Net(0));
    } else {
      if AllClosed(out, d) {
        DefaultRouteOpen(env, out, d, First(cfg, n), 0);
        if !OneGateway(cfg, env.routers, n) {
          var t, m := SecondGateway(cfg, env.routers, n);
          var other := GatewayRoutes(env, d, n, t, m);
          DefaultRouteOpen(env, out, d, First(cfg, n), First(cfg, t) + m);
          SizesDiffer(env.g.startGw, env.g.startExt);
          MeetOnce(env.g.startGw, env.g.startExt, First(cfg, t) + m);
        }
      }
      if OneGateway(cfg, env.routers, n) && env.g.startGw.Gateway(1) == env.g.startExt.Gateway(2) {
        OnlyFirstRouted(env, n);
        MetClosed(env, out, d, First(cfg, n));
      }
    }
  }
}
