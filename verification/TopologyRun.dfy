/** Routing closure of the routed topology over any number of serial iterations. */
module TopologyRun {
  import opened Common
  import opened Cidrs
  import opened NorthDb
  import opened NbCtls
  import opened Builders
  import opened Topology
  import opened TopologyDb

  lemma GrowsSelf(a: Db)
    ensures Grows(a, a)
  {
  }

  /** Marks may be read as lower bounds. */
  lemma Raise(env: Env, db: Db, m: Mark, n: Mark)
    requires Inv(env, db, m)
    requires m.switch <= n.switch && m.connection <= n.connection && m.gateway <= n.gateway
    requires m.phynet <= n.phynet && m.route <= n.route && m.port <= n.port
    ensures Inv(env, db, n)
  {
  }

  /** The first item of a remaining list, then the others. */
  lemma FirstItem(db: Db, items: seq<seq<Cmd>>, i: nat, next: Db, end: Db)
    requires i < |items| && ApplyAll(db, items[i]) == Success(next)
    requires ApplyAll(next, Flatten(items[i + 1..])) == Success(end)
    ensures ApplyAll(db, Flatten(items[i..])) == Success(end)
  {
    hide ApplyAll;
    assert items[i..][1..] == items[i + 1..];
    ApplyConcat(db, items[i], Flatten(items[i + 1..]));
  }

  lemma NoItemLeft(db: Db, items: seq<seq<Cmd>>)
    ensures ApplyAll(db, Flatten(items[|items|..])) == Success(db)
  {
  }

  lemma {:induction false} SwitchLoop(env: Env, db: Db, m: Mark, f: nat, i: nat) returns (d: Db)
    requires Inv(env, db, m) && i <= env.cfg.amount && m.switch == f + i
    ensures ApplyAll(db, Flatten(SwitchItems(env.Net(f), env.cfg.amount, env.cfg.settings)[i..])) == Success(d)
    ensures Inv(env, d, m.(switch := f + env.cfg.amount)) && Grows(db, d)
    ensures SwitchesThere(env, d, f + i, f + env.cfg.amount)
    decreases env.cfg.amount - i
  {
    hide Inv, Grows, ApplyAll, SwitchCmds, Configured, WithSwitch;
    var items := SwitchItems(env.Net(f), env.cfg.amount, env.cfg.settings);
    if i == env.cfg.amount {
      d := db;
      NoItemLeft(db, items);
      GrowsSelf(db);
    } else {
      AtComposes(env.cfg.start, f, i);
      var next := WithSwitch(db, env.Net(f + i), env.cfg.settings);
      InvFresh(env, db, m);
      SwitchApplied(db, env.Net(f + i), env.cfg.settings);
      SwitchKeeps(env, db, m);
      d := SwitchLoop(env, next, m.(switch := m.switch + 1), f, i + 1);
      FirstItem(db, items, i, next, d);
      GrowsTwice(db, next, d);
      NewSwitch(env, db, f + i);
      SwitchStays(env, next, d, f + i);
    }
  }

  /** The network of global index k is there, configured. */
  ghost predicate SwitchThere(env: Env, db: Db, k: nat) {
    LSwitch(env.Net(k)) in db.switches && Configured(db, LSwitch(env.Net(k)), env.cfg.settings)
  }

  ghost predicate SwitchesThere(env: Env, db: Db, f: nat, end: nat) {
    forall k: nat | f <= k < end :: SwitchThere(env, db, k)
  }

  lemma NewSwitch(env: Env, db: Db, k: nat)
    requires FreshSwitch(db, env.Net(k))
    ensures SwitchThere(env, WithSwitch(db, env.Net(k), env.cfg.settings), k)
  {
    SwitchApplied(db, env.Net(k), env.cfg.settings);
  }

  lemma SwitchStays(env: Env, a: Db, b: Db, k: nat)
    requires Grows(a, b)
    ensures SwitchThere(env, a, k) ==> SwitchThere(env, b, k)
  {
  }

  lemma SwitchesStay(env: Env, a: Db, b: Db, f: nat, end: nat)
    requires Grows(a, b)
    ensures SwitchesThere(env, a, f, end) ==> SwitchesThere(env, b, f, end)
  {
    hide SwitchThere, Grows;
    forall k: nat
      ensures SwitchThere(env, a, k) ==> SwitchThere(env, b, k)
    {
      SwitchStays(env, a, b, k);
    }
  }

  lemma InvFresh(env: Env, db: Db, m: Mark)
    requires Inv(env, db, m)
    ensures FreshSwitch(db, env.Net(m.switch)) && FreshConnection(db, env.Net(m.connection))
    ensures forall r | r in env.routers :: r in db.routers
  {
    FreshAt(env, db, m);
  }

  lemma {:induction false} ConnectLoop(env: Env, db: Db, m: Mark, f: nat, nets: seq<Lswitch>, owners: seq<Name>, i: nat)
    returns (d: Db)
    requires env.Valid() && Inv(env, db, m) && i <= |owners| <= |nets| && m.connection == f + i
    requires nets == Lswitches(env.Net(f), |nets|) && forall r | r in owners :: r in env.routers
    requires SwitchesThere(env, db, f, f + |nets|)
    ensures ApplyAll(db, Flatten(ConnectItems(nets, owners)[i..])) == Success(d)
    ensures Inv(env, d, m.(connection := f + |owners|)) && Grows(db, d)
    ensures forall k: nat | i <= k < |owners| :: ConnectedTo(env, d, f + k, owners[k])
    decreases |owners| - i
  {
    hide Inv, Grows, ApplyAll, ConnectCmds, Configured, WithConnection, ConnectedTo;
    var items := ConnectItems(nets, owners);
    if i == |owners| {
      d := db;
      NoItemLeft(db, items);
      GrowsSelf(db);
    } else {
      AtComposes(env.cfg.start, f, i);
      assert nets[i] == Lswitch(LSwitch(env.Net(f + i)), env.Net(f + i));
      var next := WithConnection(db, owners[i], nets[i]);
      InvFresh(env, db, m);
      assert SwitchThere(env, db, f + i);
      ConnectionApplied(db, owners[i], nets[i]);
      ConnectionKeeps(env, db, m, owners[i], nets[i]);
      SwitchesStay(env, db, next, f, f + |nets|);
      d := ConnectLoop(env, next, m.(connection := m.connection + 1), f, nets, owners, i + 1);
      FirstItem(db, items, i, next, d);
      GrowsTwice(db, next, d);
      NewConnection(env, db, f + i, owners[i]);
      ConnectionStays(env, next, d, f + i, owners[i]);
    }
  }

  /** The router port of the network of global index k, its address the network's gateway. */
  ghost predicate ConnectedTo(env: Env, db: Db, k: nat, router: Name) {
    LSwitch(env.Net(k)) in db.lrps && db.lrps[LSwitch(env.Net(k))] == Lrp(router, env.Net(k).Iface(1))
  }

  lemma NewConnection(env: Env, db: Db, k: nat, router: Name)
    ensures ConnectedTo(env, WithConnection(db, router, Lswitch(LSwitch(env.Net(k)), env.Net(k))), k, router)
  {
  }

  lemma ConnectionStays(env: Env, a: Db, b: Db, k: nat, router: Name)
    requires Grows(a, b)
    ensures ConnectedTo(env, a, k, router) ==> ConnectedTo(env, b, k, router)
  {
  }

  lemma {:induction false} GatewayLoop(env: Env, db: Db, m: Mark, f: nat, owners: seq<Name>, boxes: seq<Sandbox>, i: nat)
    returns (d: Db)
    requires env.Valid() && Inv(env, db, m) && i <= |owners| <= |boxes| && m.gateway == f + i
    requires forall r | r in owners :: r in env.routers
    ensures ApplyAll(db, Flatten(GatewayItems(owners, boxes, env.Gw(f), env.Ext(f))[i..])) == Success(d)
    ensures Inv(env, d, m.(gateway := f + |owners|)) && Grows(db, d)
    ensures forall k: nat | i <= k < |owners| :: Built(d, owners[k], env.Gw(f + k), env.Ext(f + k), boxes[k].container)
    decreases |owners| - i
  {
    hide Inv, Grows, ApplyAll, GatewayCmds, WithGateway, Built, FreshGw, FreshExt;
    var items := GatewayItems(owners, boxes, env.Gw(f), env.Ext(f));
    if i == |owners| {
      d := db;
      NoItemLeft(db, items);
      GrowsSelf(db);
    } else {
      AtComposes(env.g.startGw, f, i);
      AtComposes(env.g.startExt, f, i);
      var next := WithGateway(db, owners[i], env.Gw(f + i), env.Ext(f + i), boxes[i].container);
      InvFresh(env, db, m);
      GatewayKeeps(env, db, m, owners[i], boxes[i].container);
      GatewayApplied(db, owners[i], env.Gw(f + i), env.Ext(f + i), boxes[i].container);
      d := GatewayLoop(env, next, m.(gateway := m.gateway + 1), f, owners, boxes, i + 1);
      FirstItem(db, items, i, next, d);
      GrowsTwice(db, next, d);
      BuiltGrows(next, d, owners[i], env.Gw(f + i), env.Ext(f + i), boxes[i].container);
    }
  }

  lemma {:induction false} PhynetLoop(env: Env, db: Db, m: Mark, f: nat, switches: seq<Name>, i: nat) returns (d: Db)
    requires Inv(env, db, m) && i <= |switches| && m.phynet == f + i
    requires forall k: nat | k < |switches| :: switches[k] == ExtSwitch(env.Ext(f + k)) && switches[k] in db.switches
    ensures ApplyAll(db, Flatten(PhynetItems(switches, env.g.physnet)[i..])) == Success(d)
    ensures Inv(env, d, m.(phynet := f + |switches|)) && Grows(db, d)
    ensures forall k: nat | f + i <= k < f + |switches| :: HasPhynet(d, env.Ext(k), env.g.physnet)
    decreases |switches| - i
  {
    hide Inv, Grows, ApplyAll, PhynetCmds, HasPhynet;
    var items := PhynetItems(switches, env.g.physnet);
    if i == |switches| {
      d := db;
      NoItemLeft(db, items);
      GrowsSelf(db);
    } else {
      var next := WithPhynet(db, switches[i], env.g.physnet);
      PhynetKeeps(env, db, m);
      PhynetApplied(db, switches[i], env.g.physnet);
      d := PhynetLoop(env, next, m.(phynet := m.phynet + 1), f, switches, i + 1);
      FirstItem(db, items, i, next, d);
      GrowsTwice(db, next, d);
      PhynetGrows(next, d, env.Ext(f + i), env.g.physnet);
    }
  }

  /** The state the route loop starts from: gateways and localnet ports are in place. */
  ghost predicate Wired(env: Env, db: Db, f: nat, dps: seq<Dp>) {
    forall k: nat | k < |dps| :: WiredAt(env, db, f + k, dps[k])
  }

  lemma StillWired(env: Env, a: Db, b: Db, f: nat, dps: seq<Dp>)
    requires Grows(a, b) && Wired(env, a, f, dps)
    ensures Wired(env, b, f, dps)
  {
    hide Grows, WiredAt;
    forall k: nat | k < |dps|
      ensures WiredAt(env, b, f + k, dps[k])
    {
      WiredGrows(env, a, b, f + k, dps[k]);
    }
  }

  lemma {:induction false} RouteLoop(env: Env, db: Db, m: Mark, f: nat, dps: seq<Dp>, i: nat)
    returns (d: Db)
    requires Inv(env, db, m) && i <= |dps| && m.route == f + i && Wired(env, db, f, dps)
    requires i < |dps| ==> env.ClusterFree()
    ensures ApplyAll(db, Flatten(RouteItems(dps, env.g.cluster)[i..])) == Success(d)
    ensures Inv(env, d, m.(route := f + |dps|)) && Grows(db, d)
    ensures forall k: nat | i <= k < |dps| :: Served(d, dps[k], env.g.cluster)
    decreases |dps| - i
  {
    hide Inv, Grows, ApplyAll, RouteCmds, RoutesOf, Built, HasPhynet, Served;
    var items := RouteItems(dps, env.g.cluster);
    if i == |dps| {
      d := db;
      NoItemLeft(db, items);
      GrowsSelf(db);
    } else {
      var next := WithRoutes(db, dps[i], env.g.cluster);
      assert WiredAt(env, db, f + i, dps[i]);
      BuiltRouters(db, dps[i].router, env.Gw(f + i), env.Ext(f + i), env.Box(f + i));
      RoutesKeep(env, db, m, dps[i]);
      RoutesApplied(db, dps[i], env.Gw(f + i), env.g.cluster);
      StillWired(env, db, next, f, dps);
      d := RouteLoop(env, next, m.(route := m.route + 1), f, dps, i + 1);
      FirstItem(db, items, i, next, d);
      GrowsTwice(db, next, d);
      ServedGrows(next, d, dps[i], env.g.cluster);
    }
  }

  /** With a default-route cluster the first of the routes is refused. */
  lemma RoutesRefused(env: Env, db: Db, m: Mark, f: nat, dps: seq<Dp>)
    requires Inv(env, db, m) && dps != [] && m.route == f && Wired(env, db, f, dps) && !env.ClusterFree()
    ensures ApplyAll(db, Flatten(RouteItems(dps, env.g.cluster))).Failure?
  {
    hide Inv, Grows, ApplyAll, RouteCmds, RoutesOf, Built, HasPhynet, WithRoutes;
    assert WiredAt(env, db, f + 0, dps[0]);
    RoutesKeep(env, db, m, dps[0]);
    BuiltRouters(db, dps[0].router, env.Gw(f), env.Ext(f), env.Box(f));
    RoutesApplied(db, dps[0], env.Gw(f), env.g.cluster);
    FirstRefused(db, RouteItems(dps, env.g.cluster));
  }

  lemma FirstRefused(db: Db, items: seq<seq<Cmd>>)
    requires items != [] && ApplyAll(db, items[0]).Failure?
    ensures ApplyAll(db, Flatten(items)).Failure?
  {
    hide ApplyAll;
    ApplyConcat(db, items[0], Flatten(items[1..]));
  }

  lemma BuiltRouters(db: Db, router: Name, g: Cidr, e: Cidr, container: nat)
    requires Built(db, router, g, e, container)
    ensures router in db.routers && GwRouter(g) in db.routers && ExtSwitch(e) in db.switches
  {
  }

  /** The management port of the network with global index k: behind its first address, on its switch. */
  predicate PortThere(env: Env, db: Db, k: nat) {
    var ip := env.Net(k).ip + 1;
    Lp(ip) in db.lsps && db.lsps[Lp(ip)] == VifPort(LSwitch(env.Net(k)), ip, env.cfg.portSecurity)
  }

  lemma {:induction false} PortLoop(env: Env, db: Db, m: Mark, f: nat, nets: seq<Lswitch>, i: nat) returns (d: Db)
    requires Inv(env, db, m) && i <= |nets| && m.port == f + i && nets == Lswitches(env.Net(f), |nets|)
    requires SwitchesThere(env, db, f, f + |nets|)
    requires forall k | 0 <= k < |nets| :: WindowFits(nets[k].cidr, 1, 1)
    ensures ApplyAll(db, Flatten(LportItems(nets, 1, 1, env.cfg.portSecurity)[i..])) == Success(d)
    ensures Inv(env, d, m.(port := f + |nets|)) && Grows(db, d)
    ensures forall k: nat | f + i <= k < f + |nets| :: PortThere(env, d, k)
    decreases |nets| - i
  {
    hide Inv, Grows, ApplyAll, PortCmds, Configured, PortThere, WithPort, PortItems;
    var items := LportItems(nets, 1, 1, env.cfg.portSecurity);
    if i == |nets| {
      d := db;
      NoItemLeft(db, items);
      GrowsSelf(db);
    } else {
      AtComposes(env.cfg.start, f, i);
      var sw := nets[i];
      assert sw == Lswitch(LSwitch(env.Net(f + i)), env.Net(f + i));
      var ip := sw.cidr.ip + 1;
      var next := WithPort(db, sw.name, ip, env.cfg.portSecurity);
      OnePort(sw.name, ip, env.cfg.portSecurity);
      assert items[i] == PortCmds(sw.name, ip, env.cfg.portSecurity);
      assert WindowFits(sw.cidr, 1, 1);
      PortKeeps(env, db, m, sw.name, ip, env.cfg.portSecurity);
      assert SwitchThere(env, db, f + i);
      PortApplied(db, sw.name, ip, env.cfg.portSecurity);
      SwitchesStay(env, db, next, f, f + |nets|);
      d := PortLoop(env, next, m.(port := m.port + 1), f, nets, i + 1);
      FirstItem(db, items, i, next, d);
      GrowsTwice(db, next, d);
      NewPortThere(env, db, f + i);
      PortStays(env, next, d, f + i);
    }
  }

  lemma OnePort(switch: Name, ip: nat, security: bool)
    ensures Flatten(PortItems(switch, ip, 1, security)) == PortCmds(switch, ip, security)
  {
    var one := PortItems(switch, ip, 1, security);
    assert one == [PortCmds(switch, ip, security)];
    assert Flatten(one) == one[0] + Flatten(one[1..]);
  }

  lemma NewPortThere(env: Env, db: Db, k: nat)
    ensures PortThere(env, WithPort(db, LSwitch(env.Net(k)), env.Net(k).ip + 1, env.cfg.portSecurity), k)
  {
  }

  lemma PortStays(env: Env, a: Db, b: Db, k: nat)
    requires Grows(a, b)
    ensures PortThere(env, a, k) ==> PortThere(env, b, k)
  {
  }

  // ---- one iteration

  function All(k: nat): Mark {
    Mark(k, k, k, k, k, k)
  }

  lemma {:induction false} AssignedMember(networks: nat, routers: seq<Name>, npr: nat)
    ensures forall r | r in Assigned(networks, routers, npr) :: r in routers
    decreases |routers|
  {
    if routers == [] {
    } else {
      AssignedMember(networks - Min(npr, networks), routers[1..], npr);
    }
  }

  /** The gateways of the iteration from index f on, as the run reports them, are in place and served. */
  ghost predicate HasGateways(env: Env, db: Db, f: nat, dps: seq<Dp>) {
    Wired(env, db, f, dps) && forall m | 0 <= m < |dps| :: Served(db, dps[m], env.g.cluster)
  }

  lemma DpAt(env: Env, f: nat, nets: seq<Lswitch>, owners: seq<Name>, m: nat)
    requires m < |owners| <= |nets| && nets == Lswitches(env.Net(f), |nets|)
    ensures var dps := Dps(nets, owners, env.Gw(f), env.Ext(f));
            && |dps| == |owners| && nets[m] == Lswitch(LSwitch(env.Net(f + m)), env.Net(f + m))
            && dps[m] == DpOf(nets[m], owners[m], env.Gw(f + m), env.Ext(f + m))
  {
    AtComposes(env.cfg.start, f, m);
    AtComposes(env.g.startGw, f, m);
    AtComposes(env.g.startExt, f, m);
    hide Cidr.At;
  }

  /** After the gateway loop: what the phynet loop needs ... */
  lemma ExtSwitchesThere(env: Env, db: Db, f: nat, nets: seq<Lswitch>, owners: seq<Name>, boxes: seq<Sandbox>, k: nat)
    requires k < |owners| <= |nets| <= |boxes| && nets == Lswitches(env.Net(f), |nets|)
    requires Built(db, owners[k], env.Gw(f + k), env.Ext(f + k), boxes[k].container)
    ensures var s := ExtSwitches(Dps(nets, owners, env.Gw(f), env.Ext(f)));
            |s| == |owners| && s[k] == ExtSwitch(env.Ext(f + k)) && s[k] in db.switches
  {
    DpAt(env, f, nets, owners, k);
    BuiltRouters(db, owners[k], env.Gw(f + k), env.Ext(f + k), boxes[k].container);
  }

  /** ... and after that one: what the route loop needs. */
  lemma WiredNow(env: Env, a: Db, b: Db, f: nat, nets: seq<Lswitch>, owners: seq<Name>, boxes: seq<Sandbox>)
    requires |owners| <= |nets| <= |boxes| && nets == Lswitches(env.Net(f), |nets|) && Grows(a, b)
    requires forall r | r in owners :: r.Random?
    requires forall k: nat | k < |owners| :: Built(a, owners[k], env.Gw(f + k), env.Ext(f + k), boxes[k].container)
    requires forall k: nat | f <= k < f + |owners| :: HasPhynet(b, env.Ext(k), env.g.physnet)
    requires Placed(env, f, boxes) && ExtsThere(env, f, |owners|) && AllOwned(env, f, owners)
    ensures Wired(env, b, f, Dps(nets, owners, env.Gw(f), env.Ext(f)))
  {
    hide Grows, Built, HasPhynet, Cidr.At, Lswitches, Cidr.Next, Cidr.Gateway, Env.Box, Env.Owner;
    var dps := Dps(nets, owners, env.Gw(f), env.Ext(f));
    forall k: nat | k < |dps|
      ensures WiredAt(env, b, f + k, dps[k])
    {
      DpAt(env, f, nets, owners, k);
      BuiltGrows(a, b, owners[k], env.Gw(f + k), env.Ext(f + k), boxes[k].container);
      assert owners[k] in owners && HasPhynet(b, env.Ext(f + k), env.g.physnet);
      assert env.Owner(f + k) == Some(owners[k]);
      assert boxes[k].container == env.Box(f + k);
    }
  }

  /** The sandboxes of an iteration are those of its global indexes. */
  ghost predicate Placed(env: Env, f: nat, boxes: seq<Sandbox>) {
    (boxes != [] ==> env.sandboxes != []) && forall k: nat | k < |boxes| :: boxes[k].container == env.Box(f + k)
  }

  ghost predicate ExtsThere(env: Env, f: nat, n: nat) {
    forall k: nat | f <= k < f + n :: env.g.startExt.Next(k).Some? && env.Gw(k).Gateway(2) >= 0
  }

  /** The owners of an iteration's networks are the routers of their indexes, and no more find one. */
  ghost predicate AllOwned(env: Env, f: nat, owners: seq<Name>) {
    forall k: nat | f <= k < f + |owners| || f <= k < f + env.cfg.amount ::
      env.Owner(k) == if k < f + |owners| then Some(owners[k - f]) else None
  }

  lemma FitsExts(env: Env, f: nat, n: nat)
    requires GatewaysFit(env.g, f, n)
    ensures ExtsThere(env, f, n)
  {
    AtComposes(env.g.startExt, f, n);
    forall k: nat | f <= k < f + n
      ensures env.g.startExt.Next(k).Some? && env.Gw(k).Gateway(2) >= 0
    {
      NextPrefix(env.g.startExt, k, f + n);
      AtComposes(env.g.startGw, f, k - f);
      GatewayGrows(env.Gw(f), k - f, 2);
    }
  }

  /** The gateway part is accepted exactly when there is no gateway or the cluster is not the default route. */
  lemma GatewayPartApplied(env: Env, db: Db, m: Mark, f: nat, nets: seq<Lswitch>, owners: seq<Name>, boxes: seq<Sandbox>)
    returns (d: Db)
    requires env.Valid() && Inv(env, db, m) && m.gateway == f && m.phynet == f && m.route == f
    requires |owners| <= |nets| <= |boxes| && nets == Lswitches(env.Net(f), |nets|)
    requires forall r | r in owners :: r in env.routers
    requires Placed(env, f, boxes) && ExtsThere(env, f, |owners|) && AllOwned(env, f, owners)
    ensures var r := ApplyAll(db, GatewayPart(env.g, f, nets, owners, boxes));
            && (r.Success? <==> owners == [] || env.ClusterFree())
            && (r.Success? ==> r == Success(d))
    ensures owners == [] || env.ClusterFree() ==>
              var e := f + |owners|; Inv(env, d, m.(gateway := e, phynet := e, route := e)) && Grows(db, d)
    ensures owners == [] || env.ClusterFree() ==> HasGateways(env, d, f, Dps(nets, owners, env.Gw(f), env.Ext(f)))
  {
    hide Inv, Grows, ApplyAll, Built, HasPhynet, Placed, ExtsThere, AllOwned, GatewayItems, PhynetItems, RouteItems, RoutesOf,
         Dps, Flatten, Wired, Lswitches, ExtSwitches, Env.ClusterFree, Served;
    var dps := Dps(nets, owners, env.Gw(f), env.Ext(f));
    var switches := ExtSwitches(dps);
    DpsCount(nets, owners, env.Gw(f), env.Ext(f));
    var g := GatewayItems(owners, boxes, env.Gw(f), env.Ext(f));
    var p := PhynetItems(switches, env.g.physnet);
    var r := RouteItems(dps, env.g.cluster);
    assert g[0..] == g && p[0..] == p && r[0..] == r;
    var d1 := GatewayLoop(env, db, m, f, owners, boxes, 0);
    forall k: nat | k < |switches|
      ensures switches[k] == ExtSwitch(env.Ext(f + k)) && switches[k] in d1.switches
    {
      ExtSwitchesThere(env, d1, f, nets, owners, boxes, k);
    }
    var m1 := m.(gateway := f + |owners|);
    var d2 := PhynetLoop(env, d1, m1, f, switches, 0);
    WiredNow(env, d1, d2, f, nets, owners, boxes);
    ApplyConcat(db, Flatten(g), Flatten(p));
    ApplyConcat(db, Flatten(g) + Flatten(p), Flatten(r));
    if owners == [] || env.ClusterFree() {
      d := RouteLoop(env, d2, m1.(phynet := f + |owners|), f, dps, 0);
      StillWired(env, d2, d, f, dps);
      GrowsTwice(db, d1, d2);
      GrowsTwice(db, d2, d);
    } else {
      d := db;
      RoutesRefused(env, d2, m1.(phynet := f + |owners|), f, dps);
    }
  }

  lemma DpsCount(nets: seq<Lswitch>, owners: seq<Name>, gw: Cidr, ext: Cidr)
    requires |owners| <= |nets|
    ensures |Dps(nets, owners, gw, ext)| == |owners| == |ExtSwitches(Dps(nets, owners, gw, ext))|
  {
  }

  lemma NetworksApplied(env: Env, db: Db, f: nat, nets: seq<Lswitch>, owners: seq<Name>) returns (d: Db)
    requires env.Valid() && Inv(env, db, All(f))
    requires nets == Lswitches(env.Net(f), env.cfg.amount) && |owners| <= |nets| == env.cfg.amount
    requires forall r | r in owners :: r in env.routers
    requires AllOwned(env, f, owners)
    ensures ApplyAll(db, Flatten(SwitchItems(env.Net(f), env.cfg.amount, env.cfg.settings))
                         + Flatten(ConnectItems(nets, owners))) == Success(d)
    ensures Inv(env, d, All(f).(switch := f + env.cfg.amount, connection := f + |owners|)) && Grows(db, d)
    ensures SwitchesThere(env, d, f, f + env.cfg.amount) && Connections(env, d, f, f + env.cfg.amount)
  {
    hide Inv, Grows, ApplyAll, SwitchItems, ConnectItems, Flatten, Lswitches, SwitchesThere, ConnectedTo, Env.Owner;
    var si, ci := SwitchItems(env.Net(f), env.cfg.amount, env.cfg.settings), ConnectItems(nets, owners);
    assert si[0..] == si && ci[0..] == ci;
    var d1 := SwitchLoop(env, db, All(f), f, 0);
    d := ConnectLoop(env, d1, All(f).(switch := f + env.cfg.amount), f, nets, owners, 0);
    GrowsTwice(db, d1, d);
    ApplyConcat(db, Flatten(si), Flatten(ci));
    SwitchesStay(env, d1, d, f, f + env.cfg.amount);
    forall k: nat | f <= k < f + env.cfg.amount && env.Owner(k).Some?
      ensures ConnectedTo(env, d, k, env.Owner(k).value)
    {
      assert ConnectedTo(env, d, f + (k - f), owners[k - f]);
    }
  }

  /** Every network that finds a router is connected to it. */
  ghost predicate Connections(env: Env, db: Db, f: nat, end: nat) {
    forall k: nat | f <= k < end && env.Owner(k).Some? :: ConnectedTo(env, db, k, env.Owner(k).value)
  }

  lemma ConnectionsStay(env: Env, a: Db, b: Db, f: nat, end: nat)
    requires Grows(a, b) && Connections(env, a, f, end)
    ensures Connections(env, b, f, end)
  {
    hide Grows, ConnectedTo;
    forall k: nat | f <= k < end && env.Owner(k).Some?
      ensures ConnectedTo(env, b, k, env.Owner(k).value)
    {
      ConnectionStays(env, a, b, k, env.Owner(k).value);
    }
  }

  /** The gateway part of an iteration, when there is one. */
  lemma GatewaysApplied(env: Env, db: Db, m: Mark, f: nat, nets: seq<Lswitch>, owners: seq<Name>) returns (d: Db)
    requires env.Valid() && m.gateway == f && m.phynet == f && m.route == f && Inv(env, db, m)
    requires env.cfg.gateways.Some? ==> env.cfg.gateways == Some(env.g) && GatewaysFit(env.g, f, |owners|)
    requires env.cfg.amount > 0 ==> |env.sandboxes| > 0
    requires nets == Lswitches(env.Net(f), env.cfg.amount) && |owners| <= |nets| == env.cfg.amount
    requires AllOwned(env, f, owners) && forall r | r in owners :: r in env.routers
    ensures var r := ApplyAll(db, if env.cfg.gateways.Some?
                                  then GatewayPart(env.g, f, nets, owners, Boxes(env.sandboxes, f, env.cfg.amount)) else []);
            && (r.Success? <==> env.cfg.gateways.None? || owners == [] || env.ClusterFree())
            && (r.Success? ==>
                  && r == Success(d) && Grows(db, d)
                  && Inv(env, d, m.(gateway := f + |owners|, phynet := f + |owners|, route := f + |owners|))
                  && (env.cfg.gateways.Some? ==> HasGateways(env, d, f, Dps(nets, owners, env.Gw(f), env.Ext(f)))))
  {
    hide Inv, Grows, ApplyAll, GatewayPart, HasGateways, Dps, Lswitches, GatewaysFit, AllOwned, Env.ClusterFree;
    var boxes := Boxes(env.sandboxes, f, env.cfg.amount);
    if env.cfg.gateways.Some? {
      FitsExts(env, f, |owners|);
      d := GatewayPartApplied(env, db, m, f, nets, owners, boxes);
    } else {
      d := db;
      NothingApplied(db);
      GrowsSelf(db);
      Raise(env, db, m, m.(gateway := f + |owners|, phynet := f + |owners|, route := f + |owners|));
    }
  }

  lemma PortsApplied(env: Env, db: Db, m: Mark, f: nat, nets: seq<Lswitch>) returns (d: Db)
    requires Inv(env, db, m) && m.port == f && nets == Lswitches(env.Net(f), env.cfg.amount) && |nets| == env.cfg.amount
    requires SwitchesThere(env, db, f, f + env.cfg.amount)
    requires env.cfg.mgmtPort ==> LportsFit(nets, 1, 1, ExtStart(env.cfg, f), env.cfg.amount)
    ensures var r := ApplyAll(db, ManagementPart(env.cfg, f));
            && (r.Success? <==> (env.cfg.mgmtPort ==> env.cfg.bind.Accepted()))
            && (r.Success? ==> r == Success(d))
    ensures Inv(env, d, m.(port := f + env.cfg.amount)) && Grows(db, d)
    ensures env.cfg.mgmtPort ==> forall k: nat | f <= k < f + env.cfg.amount :: PortThere(env, d, k)
  {
    hide Inv, Grows, ApplyAll, LportItems, Flatten, WindowFits, BindArgs.Waits, RoutedLports, NamesOf, Lswitches,
         SwitchesThere;
    if env.cfg.mgmtPort {
      var li := LportItems(nets, 1, 1, env.cfg.portSecurity);
      assert li[0..] == li;
      d := PortLoop(env, db, m, f, nets, 0);
      var names := NamesOf(RoutedLports(env.cfg, f));
      forall p | p in names
        ensures p in d.lsps
      {
        var k :| 0 <= k < |names| && names[k] == p;
        ManagementNames(env.cfg, f);
        ManagementName(env.cfg, f, k);
        assert PortThere(env, d, f + k);
      }
      WaitsApplied(d, env.cfg.bind, names);
      ApplyConcat(db, Flatten(li), env.cfg.bind.Waits(names));
    } else {
      d := db;
      NothingApplied(db);
      GrowsSelf(db);
      Raise(env, db, m, m.(port := f + env.cfg.amount));
    }
  }

  lemma ManagementNames(cfg: RoutedConfig, f: nat)
    ensures |RoutedLports(cfg, f)| == |NamesOf(RoutedLports(cfg, f))| == cfg.amount
  {
    var lists := LportLists(Lswitches(cfg.start.At(f), cfg.amount), 1, 1, ExtStart(cfg, f));
    if cfg.amount > 0 {
      FlattenOnes(lists, 0);
    }
  }

  lemma ManagementName(cfg: RoutedConfig, f: nat, m: nat)
    requires m < cfg.amount
    ensures |NamesOf(RoutedLports(cfg, f))| == cfg.amount
    ensures NamesOf(RoutedLports(cfg, f))[m] == Lp(cfg.start.At(f + m).ip + 1)
  {
    ManagementNames(cfg, f);
    AtComposes(cfg.start, f, m);
    FlattenOnes(LportLists(Lswitches(cfg.start.At(f), cfg.amount), 1, 1, ExtStart(cfg, f)), m);
  }

  /** The networks with global indexes from f on are there, connected if they find a router, with their
      management ports if they are to have any. */
  ghost predicate NetsThere(env: Env, db: Db, f: nat, end: nat) {
    && SwitchesThere(env, db, f, end) && Connections(env, db, f, end)
    && (env.cfg.mgmtPort ==> forall k: nat | f <= k < end :: PortThere(env, db, k))
  }

  lemma NetsStay(env: Env, a: Db, b: Db, f: nat, end: nat)
    requires Grows(a, b) && NetsThere(env, a, f, end)
    ensures NetsThere(env, b, f, end)
  {
    hide Grows, Connections, PortThere;
    SwitchesStay(env, a, b, f, end);
    ConnectionsStay(env, a, b, f, end);
    forall k: nat
      ensures PortThere(env, a, k) ==> PortThere(env, b, k)
    {
      PortStays(env, a, b, k);
    }
  }

  /** Whether the iterations make any gateway. */
  predicate MakesGateways(cfg: RoutedConfig, routers: seq<Name>) {
    cfg.gateways.Some? && cfg.amount > 0 && routers != [] && cfg.npr > 0
  }

  /** Exactly when no command of a fitting iteration is refused: a cluster that is the default route takes
      the route that a gateway already has, and ovn-nbctl takes the words to wait for in lower case only. */
  predicate Accepted(cfg: RoutedConfig, routers: seq<Name>) {
    && (MakesGateways(cfg, routers) ==> cfg.gateways.value.cluster.Network() != DEFAULT_ROUTE)
    && (cfg.mgmtPort ==> cfg.bind.Accepted())
  }

  lemma OwnersIff(cfg: RoutedConfig, routers: seq<Name>)
    ensures Assigned(cfg.amount, routers, cfg.npr) != [] <==> cfg.amount > 0 && routers != [] && cfg.npr > 0
  {
    AssignedLength(cfg.amount, routers, cfg.npr);
    if routers != [] && cfg.npr > 0 {
      FactorGrows(cfg.npr, |routers|);
    }
  }

  lemma IterationApplied(env: Env, db: Db, f: nat) returns (d: Db)
    requires env.Valid() && Inv(env, db, All(f)) && RoutedFits(env.cfg, env.routers, env.sandboxes, f)
    requires env.cfg.gateways.Some? ==> env.cfg.gateways == Some(env.g)
    requires AllOwned(env, f, Assigned(env.cfg.amount, env.routers, env.cfg.npr))
    ensures var r := ApplyAll(db, RoutedCmds(env.cfg, env.routers, env.sandboxes, f));
            && (r.Success? <==> Accepted(env.cfg, env.routers))
            && (r.Success? ==>
                  && r == Success(d) && Inv(env, d, All(f + env.cfg.amount)) && Grows(db, d)
                  && NetsThere(env, d, f, f + env.cfg.amount)
                  && (env.cfg.gateways.Some? ==> HasGateways(env, d, f, RoutedDps(env.cfg, env.routers, f))))
  {
    var cfg, a := env.cfg, env.cfg.amount;
    var nets := Lswitches(env.Net(f), a);
    var owners := Assigned(a, env.routers, cfg.npr);
    AssignedFits(a, env.routers, cfg.npr);
    AssignedMember(a, env.routers, cfg.npr);
    OwnersIff(cfg, env.routers);
    hide Inv, Grows, ApplyAll, SwitchItems, ConnectItems, GatewayPart, ManagementPart, HasGateways, Flatten, Assigned,
         LportsFit, NetworksFit, GatewaysFit, Dps, AllOwned, PortThere, SwitchesThere, Connections;
    var d1 := NetworksApplied(env, db, f, nets, owners);
    var m1 := All(f).(switch := f + a, connection := f + |owners|);
    var np := Flatten(SwitchItems(env.Net(f), a, cfg.settings)) + Flatten(ConnectItems(nets, owners));
    var gp := if cfg.gateways.Some? then GatewayPart(env.g, f, nets, owners, Boxes(env.sandboxes, f, a)) else [];
    assert RoutedCmds(cfg, env.routers, env.sandboxes, f) == np + gp + ManagementPart(cfg, f);
    ApplyConcat(db, np, gp);
    ApplyConcat(db, np + gp, ManagementPart(cfg, f));
    d := GatewaysApplied(env, d1, m1, f, nets, owners);
    if ApplyAll(d1, gp).Success? {
      var d2 := d;
      SwitchesStay(env, d1, d2, f, f + a);
      ConnectionsStay(env, d1, d2, f, f + a);
      var m2 := m1.(gateway := f + |owners|, phynet := f + |owners|, route := f + |owners|);
      d := PortsApplied(env, d2, m2, f, nets);
      SwitchesStay(env, d2, d, f, f + a);
      ConnectionsStay(env, d2, d, f, f + a);
      Raise(env, d, m2.(port := f + a), All(f + a));
      GrowsTwice(db, d1, d2);
      GrowsTwice(db, d2, d);
      GatewaysGrow(env, d2, d, f, Dps(nets, owners, env.Gw(f), env.Ext(f)));
    }
  }

  lemma NothingApplied(db: Db)
    ensures ApplyAll(db, []) == Success(db)
  {
  }

  lemma GatewaysGrow(env: Env, a: Db, b: Db, f: nat, dps: seq<Dp>)
    requires Grows(a, b)
    ensures HasGateways(env, a, f, dps) ==> HasGateways(env, b, f, dps)
  {
    hide Grows, Wired, Served;
    if HasGateways(env, a, f, dps) {
      StillWired(env, a, b, f, dps);
      forall m | 0 <= m < |dps|
        ensures Served(b, dps[m], env.g.cluster)
      {
        ServedGrows(a, b, dps[m], env.g.cluster);
      }
    }
  }

  // ---- the external hosts of add_chassis_external_hosts

  /** `{sb["farm"]: sb for sb in sandboxes}` */
  function FarmMap(sandboxes: seq<Sandbox>): map<nat, Sandbox> {
    if sandboxes == [] then map[]
    else FarmMap(sandboxes[..|sandboxes| - 1])[sandboxes[|sandboxes| - 1].farm := sandboxes[|sandboxes| - 1]]
  }

  /** The chassis that add_chassis_nodes_localnet and add_chassis_external_hosts use for a global index. */
  function Chassis(sandboxes: seq<Sandbox>, index: nat): Result<nat> {
    var farms := FarmMap(sandboxes);
    if |farms| == 0 then Failure(DivisionByZero)
    else if index % |farms| !in farms then Failure(MissingKey)
    else Success(farms[index % |farms|].container)
  }

  /** The mappings of br-ex made for the indexes from lo to hi. */
  function Mappings(sandboxes: seq<Sandbox>, physnet: string, lo: nat, hi: nat): map<nat, string> {
    map k {:trigger Chassis(sandboxes, k)} | lo <= k < hi && Chassis(sandboxes, k).Success? ::
      Chassis(sandboxes, k).value := physnet
  }

  method AddChassisNodesLocalnet(sandboxes: seq<Sandbox>, physnet: string, iteration: nat, batch: nat, before: map<nat, string>)
    returns (r: Result<map<nat, string>>)
    ensures var first := iteration * batch;
            && (r.Success? <==> forall k: nat | first <= k < first + batch :: Chassis(sandboxes, k).Success?)
            && (r.Success? ==> r.value == before + Mappings(sandboxes, physnet, first, first + batch))
  {
    hide Mappings, Chassis;
    var mappings, first: nat := before, iteration * batch;
    NoMapping(sandboxes, physnet, first, before);
    for index := first to first + batch
      invariant forall k: nat | first <= k < index :: Chassis(sandboxes, k).Success?
      invariant mappings == before + Mappings(sandboxes, physnet, first, index)
    {
      var container :- Chassis(sandboxes, index);
      OneMapping(sandboxes, physnet, first, index, before);
      mappings := mappings[container := physnet];
    }
    return Success(mappings);
  }

  lemma NoMapping(sandboxes: seq<Sandbox>, physnet: string, lo: nat, before: map<nat, string>)
    ensures before + Mappings(sandboxes, physnet, lo, lo) == before
  {
  }

  lemma OneMapping(sandboxes: seq<Sandbox>, physnet: string, lo: nat, k: nat, before: map<nat, string>)
    requires lo <= k && Chassis(sandboxes, k).Success?
    ensures before + Mappings(sandboxes, physnet, lo, k + 1)
            == (before + Mappings(sandboxes, physnet, lo, k))[Chassis(sandboxes, k).value := physnet]
  {
    hide Chassis;
    var was, now := Mappings(sandboxes, physnet, lo, k), Mappings(sandboxes, physnet, lo, k + 1);
    assert forall c | c in now.Keys :: c in was[Chassis(sandboxes, k).value := physnet].Keys;
    assert Chassis(sandboxes, k).value in now;
    forall c | c in was
      ensures c in now
    {
      var j :| lo <= j < k && Chassis(sandboxes, j) == Success(c);
      assert Chassis(sandboxes, j).value in now;
    }
    assert now == was[Chassis(sandboxes, k).value := physnet];
  }

  /** The host set up for a global index. */
  function Host(sandboxes: seq<Sandbox>, startExt: Cidr, index: nat): Result<ExtHost> {
    var container :- Chassis(sandboxes, index);
    if startExt.Next(index).None? then Failure(AddressOverflow)
    else if startExt.At(index).Gateway(2) < 0 then Failure(BadAddress)
    else Success(ExtHost(container, startExt.At(index).Gateway(2), startExt.At(index).Gateway(1)))
  }

  method AddChassisExternalHosts(sandboxes: seq<Sandbox>, startExt: Cidr, iteration: nat, batch: nat)
    returns (r: Result<seq<ExtHost>>)
    ensures var first := iteration * batch;
            && (r.Success? <==> forall k: nat | first <= k < first + batch :: Host(sandboxes, startExt, k).Success?)
            && (r.Success? ==> |r.value| == batch
                               && forall k: nat | first <= k < first + batch ::
                                    Host(sandboxes, startExt, k) == Success(r.value[k - first]))
  {
    var hosts := [];
    ghost var first := iteration * batch;
    for i := 0 to batch
      invariant |hosts| == i
      invariant forall k: nat | first <= k < first + i :: Host(sandboxes, startExt, k) == Success(hosts[k - first])
    {
      var index := iteration * batch + i;
      var host :- Host(sandboxes, startExt, index);
      hosts := hosts + [host];
    }
    return Success(hosts);
  }

  function HostSet(sandboxes: seq<Sandbox>, startExt: Cidr, count: nat): set<ExtHost> {
    set k {:trigger Host(sandboxes, startExt, k)} | 0 <= k < count && Host(sandboxes, startExt, k).Success? ::
      Host(sandboxes, startExt, k).value
  }

  /** The external hosts, and br-ex of their chassis mapped to a network name, for the first `count` indexes. */
  function OutsideOf(sandboxes: seq<Sandbox>, startExt: Cidr, mapped: string, count: nat): Outside {
    Outside(HostSet(sandboxes, startExt, count), Mappings(sandboxes, mapped, 0, count))
  }

  /** One sandbox per farm, listed in farm order. */
  predicate InFarmOrder(sandboxes: seq<Sandbox>) {
    forall j | 0 <= j < |sandboxes| :: sandboxes[j].farm == j
  }

  lemma {:induction false} FarmMapInOrder(sandboxes: seq<Sandbox>)
    requires InFarmOrder(sandboxes)
    ensures FarmMap(sandboxes) == map j | 0 <= j < |sandboxes| :: sandboxes[j]
    ensures |FarmMap(sandboxes)| == |sandboxes|
  {
    if sandboxes == [] {
    } else {
      var init, last := sandboxes[..|sandboxes| - 1], sandboxes[|sandboxes| - 1];
      FarmMapInOrder(init);
      assert |sandboxes| - 1 !in FarmMap(init);
      assert FarmMap(init).Keys + {last.farm} == FarmMap(sandboxes).Keys;
      CountMap(FarmMap(init), last.farm, last);
    }
  }

  lemma CountMap(m: map<nat, Sandbox>, k: nat, v: Sandbox)
    requires k !in m
    ensures |m[k := v]| == |m| + 1
  {
    assert m[k := v].Keys == m.Keys + {k};
    assert |m[k := v]| == |m[k := v].Keys| && |m| == |m.Keys|;
  }

  /** Then the host of an index sits where the gateway router of that index is bound. */
  lemma HostColocated(sandboxes: seq<Sandbox>, startExt: Cidr, k: nat)
    requires InFarmOrder(sandboxes) && |sandboxes| > 0 && startExt.Next(k).Some? && startExt.At(k).Gateway(2) >= 0
    ensures Host(sandboxes, startExt, k)
            == Success(ExtHost(sandboxes[k % |sandboxes|].container, startExt.At(k).Gateway(2), startExt.At(k).Gateway(1)))
  {
    FarmMapInOrder(sandboxes);
  }

  // ---- whole runs

  /** The global index of the first network of iteration t. */
  function First(cfg: RoutedConfig, t: nat): nat {
    t * cfg.amount
  }

  lemma FirstStep(cfg: RoutedConfig, t: nat)
    ensures First(cfg, 0) == 0 && First(cfg, t + 1) == First(cfg, t) + cfg.amount
  {
  }

  const EMPTY := Db({}, map[], {}, map[], map[], map[], map[], {}, {}, {}, map[], map[])

  function Start(routers: seq<Name>): Db {
    EMPTY.(routers := set r | r in routers)
  }

  function RunCmds(cfg: RoutedConfig, routers: seq<Name>, sandboxes: seq<Sandbox>, n: nat): seq<Cmd>
    requires cfg.amount > 0 ==> |sandboxes| > 0
  {
    if n == 0 then []
    else RunCmds(cfg, routers, sandboxes, n - 1) + RoutedCmds(cfg, routers, sandboxes, First(cfg, n - 1))
  }

  /** n iterations in a row, as a serial runner makes them. */
  method RunIterations(s: Scenario, cfg: RoutedConfig, routers: seq<Name>, sandboxes: seq<Sandbox>, n: nat)
    returns (r: Result<()>)
    requires s.Quiet() && cfg.start.Valid()
    modifies s, s.nbctl
    ensures s.SameClient()
    ensures r.Success? <==> forall t | 0 <= t < n :: RoutedFits(cfg, routers, sandboxes, First(cfg, t))
    ensures r.Success? && n > 0 ==> (cfg.amount > 0 ==> |sandboxes| > 0) && s.Sends(RunCmds(cfg, routers, sandboxes, n))
  {
    hide Scenario.Invokes, Scenario.Wire, Delivered, RoutedCmds, RoutedFits;
    for t := 0 to n
      invariant s.Quiet() && s.SameClient()
      invariant forall u | 0 <= u < t :: RoutedFits(cfg, routers, sandboxes, First(cfg, u))
      invariant t > 0 ==> cfg.amount > 0 ==> |sandboxes| > 0
      invariant t > 0 ==> Delivered(s.Wire()) == old(Delivered(s.Wire())) + RunCmds(cfg, routers, sandboxes, t)
      invariant t == 0 ==> Delivered(s.Wire()) == old(Delivered(s.Wire()))
    {
      assert First(cfg, t) == t * cfg.amount;
      var _ :- CreateRoutedNetwork(s, cfg, routers, sandboxes, t);
      FitsNeedsSandboxes(cfg, routers, sandboxes, First(cfg, t));
      assert RunCmds(cfg, routers, sandboxes, 0) == [];
    }
    return Success(());
  }

  lemma FitsNeedsSandboxes(cfg: RoutedConfig, routers: seq<Name>, sandboxes: seq<Sandbox>, f: nat)
    requires RoutedFits(cfg, routers, sandboxes, f)
    ensures cfg.amount > 0 ==> |sandboxes| > 0
  {
  }

  ghost predicate RandomNames(routers: seq<Name>) {
    forall r | r in routers :: r.Random?
  }

  /** What routing closure needs on top: room for two gateway addresses, one sandbox per farm, in order, and
      the network name of the localnet ports mapped on the chassis. */
  ghost predicate Reachable(cfg: RoutedConfig, sandboxes: seq<Sandbox>, mapped: string) {
    && cfg.gateways.Some? && InFarmOrder(sandboxes) && cfg.gateways.value.physnet == mapped
    && cfg.gateways.value.startGw.Valid() && cfg.gateways.value.startExt.Valid()
    && cfg.gateways.value.startGw.len <= 30 && cfg.gateways.value.startExt.len <= 30
  }

  lemma StartInv(env: Env)
    requires forall r | r in env.routers :: r.Random?
    ensures Inv(env, Start(env.routers), All(0))
  {
  }

  ghost predicate AllGateways(env: Env, d: Db, n: nat)
  {
    env.cfg.gateways.Some? ==>
      forall t | 0 <= t < n :: HasGateways(env, d, First(env.cfg, t), RoutedDps(env.cfg, env.routers, First(env.cfg, t)))
  }

  lemma AllGatewaysStep(env: Env, a: Db, b: Db, n: nat)
    requires Grows(a, b) && AllGateways(env, a, n)
    requires env.cfg.gateways.Some? ==>
               HasGateways(env, b, First(env.cfg, n), RoutedDps(env.cfg, env.routers, First(env.cfg, n)))
    ensures AllGateways(env, b, n + 1)
  {
    hide Grows, HasGateways, RoutedDps;
    if env.cfg.gateways.Some? {
      forall t | 0 <= t < n + 1
        ensures HasGateways(env, b, First(env.cfg, t), RoutedDps(env.cfg, env.routers, First(env.cfg, t)))
      {
        GatewaysGrow(env, a, b, First(env.cfg, t), RoutedDps(env.cfg, env.routers, First(env.cfg, t)));
      }
    }
  }

  /** The indexes of an iteration that find a router are those of its first networks. */
  lemma FirstOwned(env: Env, t: nat)
    ensures AllOwned(env, First(env.cfg, t), Assigned(env.cfg.amount, env.routers, env.cfg.npr))
  {
    var f, owners := First(env.cfg, t), Assigned(env.cfg.amount, env.routers, env.cfg.npr);
    AssignedFits(env.cfg.amount, env.routers, env.cfg.npr);
    hide Assigned, RouterOf;
    forall k: nat | f <= k < f + env.cfg.amount
      ensures env.Owner(k) == if k < f + |owners| then Some(owners[k - f]) else None
    {
      DivModUnique(k, env.cfg.amount, t, k - f);
      OwnerAt(env.cfg, env.routers, k - f);
    }
  }

  /** A run's commands are accepted exactly when those of one iteration are. */
  lemma {:induction false} RunApplied(env: Env, n: nat) returns (d: Db)
    requires env.Valid() && (env.cfg.gateways.Some? ==> env.cfg.gateways == Some(env.g))
    requires forall t | 0 <= t < n :: RoutedFits(env.cfg, env.routers, env.sandboxes, First(env.cfg, t))
    requires env.cfg.amount > 0 ==> |env.sandboxes| > 0
    ensures var r := ApplyAll(Start(env.routers), RunCmds(env.cfg, env.routers, env.sandboxes, n));
            && (r.Success? <==> n == 0 || Accepted(env.cfg, env.routers))
            && (r.Success? ==>
                  && r == Success(d) && Inv(env, d, All(First(env.cfg, n))) && AllGateways(env, d, n)
                  && NetsThere(env, d, 0, First(env.cfg, n)))
    decreases n
  {
    hide First, Inv, ApplyAll, HasGateways, RoutedFits, RoutedCmds, RoutedDps, Grows, Start, AllGateways, AllOwned, Accepted,
         NetsThere;
    FirstStep(env.cfg, 0);
    if n == 0 {
      d := Start(env.routers);
      NothingApplied(d);
      StartInv(env);
      NothingYet(env, d);
    } else {
      var f := First(env.cfg, n - 1);
      FirstStep(env.cfg, n - 1);
      var before := RunApplied(env, n - 1);
      var cmds := RunCmds(env.cfg, env.routers, env.sandboxes, n - 1);
      assert RoutedFits(env.cfg, env.routers, env.sandboxes, f);
      ApplyConcat(Start(env.routers), cmds, RoutedCmds(env.cfg, env.routers, env.sandboxes, f));
      d := before;
      if ApplyAll(Start(env.routers), cmds).Success? {
        FirstOwned(env, n - 1);
        d := IterationApplied(env, before, f);
        if Accepted(env.cfg, env.routers) {
          AllGatewaysStep(env, before, d, n - 1);
          NetsStay(env, before, d, 0, f);
          MoreNets(env, d, f, First(env.cfg, n));
        }
      }
    }
  }

  lemma MoreNets(env: Env, db: Db, f: nat, end: nat)
    requires NetsThere(env, db, 0, f) && NetsThere(env, db, f, end)
    ensures NetsThere(env, db, 0, end)
  {
  }

  lemma NothingYet(env: Env, d: Db)
    ensures AllGateways(env, d, 0) && NetsThere(env, d, 0, 0)
  {
  }

  lemma InvMeans(env: Env, d: Db, m: Mark)
    requires Inv(env, d, m)
    ensures PeerIntegrity(d) && Peered(d.lsps, d.lrps) && AllWired(env, d, m.route) && Shaped(env, d, m.port)
  {
    PeeredIsIntegrity(d);
  }

  /** A run without gateways has no use for a gateway configuration. */
  const UNUSED := GatewayConfig(DEFAULT_ROUTE, DEFAULT_ROUTE, Cidr(0, 0, 32), false, "")

  function EnvOf(cfg: RoutedConfig, routers: seq<Name>, sandboxes: seq<Sandbox>): Env {
    Env(cfg, if cfg.gateways.Some? then cfg.gateways.value else UNUSED, routers, sandboxes)
  }

  /** What a run that is not refused leaves, besides its peers. */
  ghost predicate Left(env: Env, d: Db, n: nat) {
    var end := First(env.cfg, n);
    && Peered(d.lsps, d.lrps) && AllGateways(env, d, n) && AllWired(env, d, end) && Shaped(env, d, end) && NetsThere(env, d, 0, end)
  }

  // ---- every network and gateway, in terms of the arguments of the run

  /** Network m of iteration t: its switch with its settings, the port of its router with the network's
      gateway for an address, its management port behind the first address. */
  ghost predicate NetworkInPlace(cfg: RoutedConfig, routers: seq<Name>, db: Db, t: nat, m: nat) {
    var net, owner := cfg.start.At(First(cfg, t) + m), RouterOf(cfg, routers, m);
    && LSwitch(net) in db.switches && Configured(db, LSwitch(net), cfg.settings)
    && (owner.Some? ==>
          && LSwitch(net) in db.lrps
          && db.lrps[LSwitch(net)] == Lrp(owner.value, Cidr(Clamp(net.Last() - 1), net.base, net.len)))
    && (cfg.mgmtPort ==>
          && Lp(net.ip + 1) in db.lsps && db.lsps[Lp(net.ip + 1)].switch == LSwitch(net)
          && db.lsps[Lp(net.ip + 1)].address == Ip(net.ip + 1) && db.lsps[Lp(net.ip + 1)].secured == cfg.portSecurity)
  }

  /** Its gateway router: joined to the network's router over a switch of their own, bound to the chassis of the
      sandbox of the index, two addresses from the end of its join subnet, with a localnet port of the
      configured network name on the external switch; its three routes; and traffic leaves with the address
      of its own port, forced or translated. */
  ghost predicate GatewayInPlace(g: GatewayConfig, db: Db, net: Cidr, join: Cidr, ext: Cidr, owner: Name, container: nat) {
    && GwRouter(join) in db.routers && GwRouter(join) in db.chassis && db.chassis[GwRouter(join)] == container
    && Rpj(join) in db.lrps && db.lrps[Rpj(join)].router == owner && db.lrps[Rpj(join)].net.ip == join.Last() - 1
    && Grpj(join) in db.lrps && db.lrps[Grpj(join)].router == GwRouter(join) && db.lrps[Grpj(join)].net.ip == join.Last() - 2
    && Grpe(ext) in db.lrps && db.lrps[Grpe(ext)].router == GwRouter(join)
    && SwitchesInPlace(db, join, ext, g.physnet)
    && Route(GwRouter(join), Cidr(0, 0, 0), ext.Last() - 2, false) in db.routes
    && Route(GwRouter(join), g.cluster, join.Last() - 1, false) in db.routes
    && Route(owner, net, join.Last() - 2, true) in db.routes
    && GwRouter(join) in db.snat && db.snat[GwRouter(join)] == db.lrps[Grpj(join)].net.ip
    && (GwRouter(join), db.lrps[Grpj(join)].net.ip as int, g.cluster) in db.nats
  }

  /** The join switch has ports to both routers, the external switch one to the gateway router and one out. */
  ghost predicate SwitchesInPlace(db: Db, join: Cidr, ext: Cidr, physnet: string) {
    && (exists p, q :: Names(db, p, Rpj(join)) && Names(db, q, Grpj(join))
                       && db.lsps[p].switch == db.lsps[q].switch == JoinSwitch(join))
    && (exists p :: Names(db, p, Grpe(ext)) && db.lsps[p].switch == ExtSwitch(ext))
    && (exists p :: p in db.lsps && db.lsps[p].switch == ExtSwitch(ext) && db.lsps[p].kind.Localnet?
                    && db.lsps[p].physnet == Some(physnet) && db.lsps[p].address.Unknown?)
  }

  ghost predicate InPlace(cfg: RoutedConfig, routers: seq<Name>, sandboxes: seq<Sandbox>, db: Db, t: nat, m: nat) {
    var k, owner := First(cfg, t) + m, RouterOf(cfg, routers, m);
    && NetworkInPlace(cfg, routers, db, t, m)
    && (cfg.gateways.Some? && owner.Some? && sandboxes != [] ==>
          var g := cfg.gateways.value;
          GatewayInPlace(g, db, cfg.start.At(k), g.startGw.At(k), g.startExt.At(k), owner.value,
                         sandboxes[k % |sandboxes|].container))
  }

  ghost predicate AllInPlace(cfg: RoutedConfig, routers: seq<Name>, sandboxes: seq<Sandbox>, db: Db, n: nat) {
    forall t: nat, m: nat | t < n && m < cfg.amount :: InPlace(cfg, routers, sandboxes, db, t, m)
  }

  lemma NetworkStands(env: Env, d: Db, n: nat, t: nat, m: nat)
    requires NetsThere(env, d, 0, First(env.cfg, n)) && t < n && m < env.cfg.amount
    ensures NetworkInPlace(env.cfg, env.routers, d, t, m)
  {
    hide Configured, Cidr.At, RouterOf;
    var k := First(env.cfg, t) + m;
    MulOrder(t + 1, n, env.cfg.amount);
    FirstStep(env.cfg, t);
    assert SwitchThere(env, d, k) && (env.cfg.mgmtPort ==> PortThere(env, d, k));
    DivModUnique(k, env.cfg.amount, t, m);
    assert env.Owner(k) == RouterOf(env.cfg, env.routers, m);
    assert env.Owner(k).Some? ==> ConnectedTo(env, d, k, env.Owner(k).value);
  }

  lemma GatewayStands(env: Env, d: Db, k: nat, dp: Dp)
    requires WiredAt(env, d, k, dp) && Served(d, dp, env.g.cluster)
    ensures GatewayInPlace(env.g, d, env.Net(k), env.Gw(k), env.Ext(k), dp.router, env.Box(k))
  {
    hide Cidr.At, Env.Owner, Cidr.Next, Cidr.Size;
    SwitchesStand(env, d, k, dp);
    hide SwitchesInPlace;
  }

  lemma SwitchesStand(env: Env, d: Db, k: nat, dp: Dp)
    requires WiredAt(env, d, k, dp)
    ensures SwitchesInPlace(d, env.Gw(k), env.Ext(k), env.g.physnet)
  {
    hide Cidr.At, Env.Owner, Cidr.Next, Cidr.Size, Cidr.Gateway;
    assert Provnet(ExtSwitch(env.Ext(k))) in d.lsps;
    assert Names(d, Jrp(env.Gw(k)), Rpj(env.Gw(k))) && Names(d, Jrpg(env.Gw(k)), Grpj(env.Gw(k)));
    assert Names(d, Erpg(env.Ext(k)), Grpe(env.Ext(k)));
  }

  lemma Stands(env: Env, d: Db, n: nat, t: nat, m: nat)
    requires Left(env, d, n) && t < n && m < env.cfg.amount
    requires env.cfg.gateways.Some? ==> env.cfg.gateways == Some(env.g)
    ensures InPlace(env.cfg, env.routers, env.sandboxes, d, t, m)
  {
    hide AllWired, Shaped, Peered, NetsThere, NetworkInPlace, GatewayInPlace, WiredAt, Served, RouterOf, First, Cidr.At;
    NetworkStands(env, d, n, t, m);
    var f, owner := First(env.cfg, t), RouterOf(env.cfg, env.routers, m);
    if env.cfg.gateways.Some? && owner.Some? && env.sandboxes != [] {
      AssignedFits(env.cfg.amount, env.routers, env.cfg.npr);
      OwnerAt(env.cfg, env.routers, m);
      var dps := RoutedDps(env.cfg, env.routers, f);
      assert HasGateways(env, d, f, dps);
      var nets, owners := Lswitches(env.Net(f), env.cfg.amount), Assigned(env.cfg.amount, env.routers, env.cfg.npr);
      hide Assigned;
      DpAt(env, f, nets, owners, m);
      assert WiredAt(env, d, f + m, dps[m]);
      GatewayStands(env, d, f + m, dps[m]);
    }
  }

  /** Peer integrity, for every topology and number of iterations, with or without gateways. The commands
      are accepted exactly when no gateway is made for a default-route cluster and nothing is waited for in
      other words than ovn-nbctl's; then each switch port of type router is paired with one router port, and
      every network and gateway is in place. */
  lemma PeersInEveryRun(cfg: RoutedConfig, routers: seq<Name>, sandboxes: seq<Sandbox>, n: nat)
    requires RandomNames(routers) && (cfg.amount > 0 ==> |sandboxes| > 0)
    requires forall t | 0 <= t < n :: RoutedFits(cfg, routers, sandboxes, First(cfg, t))
    ensures var r := ApplyAll(Start(routers), RunCmds(cfg, routers, sandboxes, n));
            && (r.Success? <==> n == 0 || Accepted(cfg, routers))
            && (r.Success? ==>
                  && PeerIntegrity(r.value) && AllInPlace(cfg, routers, sandboxes, r.value, n)
                  && Left(EnvOf(cfg, routers, sandboxes), r.value, n))
  {
    hide First, ApplyAll, RunCmds, RoutedFits, Inv, AllGateways, PeerIntegrity, Start, AllWired, Shaped, Accepted, NetsThere,
         Peered, InPlace;
    var env := EnvOf(cfg, routers, sandboxes);
    var d := RunApplied(env, n);
    if n == 0 || Accepted(cfg, routers) {
      InvMeans(env, d, All(First(cfg, n)));
      forall t: nat, m: nat | t < n && m < cfg.amount
        ensures InPlace(cfg, routers, sandboxes, d, t, m)
      {
        Stands(env, d, n, t, m);
      }
    }
  }

  /** Routing closure on top: every route of the database is closed. */
  lemma RoutingClosure(cfg: RoutedConfig, routers: seq<Name>, sandboxes: seq<Sandbox>, mapped: string, n: nat)
    requires RandomNames(routers) && Reachable(cfg, sandboxes, mapped) && (cfg.amount > 0 ==> |sandboxes| > 0)
    requires forall t | 0 <= t < n :: RoutedFits(cfg, routers, sandboxes, First(cfg, t))
    ensures var r := ApplyAll(Start(routers), RunCmds(cfg, routers, sandboxes, n));
            && (r.Success? <==> n == 0 || Accepted(cfg, routers))
            && (r.Success? ==>
                  && PeerIntegrity(r.value)
                  && AllClosed(OutsideOf(sandboxes, cfg.gateways.value.startExt, mapped, First(cfg, n)), r.value))
  {
    hide First, ApplyAll, RunCmds, RoutedFits, AllClosed, OutsideOf, AllGateways, PeerIntegrity, Start, AllWired, Accepted,
         Shaped, NetsThere, Peered, AllInPlace;
    PeersInEveryRun(cfg, routers, sandboxes, n);
    if n == 0 || Accepted(cfg, routers) {
      var d := ApplyAll(Start(routers), RunCmds(cfg, routers, sandboxes, n)).value;
      WiredIsClosed(cfg, EnvOf(cfg, routers, sandboxes), d, First(cfg, n));
    }
  }

  lemma WiredIsClosed(cfg: RoutedConfig, env: Env, d: Db, end: nat)
    requires Reachable(cfg, env.sandboxes, env.g.physnet) && cfg.gateways == Some(env.g) && AllWired(env, d, end)
    ensures AllClosed(OutsideOf(env.sandboxes, env.g.startExt, env.g.physnet, end), d)
  {
    hide RouteClosed, WiredAt, RoutesOf, HasHost, OutsideOf, InFarmOrder, Cidr.Valid;
    var out := OutsideOf(env.sandboxes, env.g.startExt, env.g.physnet, end);
    forall r | r in d.routes
      ensures RouteClosed(d, out, r)
    {
      assert RouteWired(env, d, r, end);
      var k: nat, dp :| k < end && r in RoutesOf(dp, env.g.cluster) && WiredAt(env, d, k, dp);
      HostThere(cfg, env, d, k, dp, end);
      RoutesClosed(env, out, d, k, dp);
    }
  }

  /** A gateway that is wired has its external host. */
  lemma HostThere(cfg: RoutedConfig, env: Env, d: Db, k: nat, dp: Dp, end: nat)
    requires Reachable(cfg, env.sandboxes, env.g.physnet) && cfg.gateways == Some(env.g) && k < end && WiredAt(env, d, k, dp)
    ensures HasHost(OutsideOf(env.sandboxes, env.g.startExt, env.g.physnet, end), env.Ext(k), env.Box(k), env.g.physnet)
  {
    hide Built, HasPhynet, Cidr.At, Cidr.Next, Cidr.Gateway, Host, Chassis, Env.Owner;
    HostFor(env.sandboxes, env.g.startExt, k);
    ChassisFor(env.sandboxes, k);
    assert Host(env.sandboxes, env.g.startExt, k).value in HostSet(env.sandboxes, env.g.startExt, end);
    assert Chassis(env.sandboxes, k).value in Mappings(env.sandboxes, env.g.physnet, 0, end);
  }

  /** The chassis mapped for an index is the one its gateway router is bound on. */
  lemma ChassisFor(sandboxes: seq<Sandbox>, k: nat)
    requires InFarmOrder(sandboxes) && sandboxes != []
    ensures Chassis(sandboxes, k) == Success(sandboxes[k % |sandboxes|].container)
  {
    FarmMapInOrder(sandboxes);
  }

  lemma HostFor(sandboxes: seq<Sandbox>, ext: Cidr, k: nat)
    requires InFarmOrder(sandboxes) && sandboxes != [] && ext.Valid() && ext.len <= 30 && ext.Next(k).Some?
    ensures Host(sandboxes, ext, k)
            == Success(ExtHost(sandboxes[k % |sandboxes|].container, ext.At(k).Gateway(2), ext.At(k).Gateway(1)))
  {
    GatewayInside(ext, k);
    HostColocated(sandboxes, ext, k);
  }

  /** The same outcome and database however the commands were batched on the wire. */
  lemma AnyBatching(routers: seq<Name>, cmds: seq<Cmd>, batches: seq<seq<Cmd>>)
    requires Flatten(batches) == cmds
    ensures RunBatches(Start(routers), batches).ok <==> ApplyAll(Start(routers), cmds).Success?
    ensures ApplyAll(Start(routers), cmds).Success? ==>
              RunBatches(Start(routers), batches) == Outcome(ApplyAll(Start(routers), cmds).value, true)
  {
    BatchesRefineCommands(Start(routers), batches);
  }

  /** The run itself: whether one of the invocations on the wire is refused, and if not, the peers and
      routes of the database that they leave behind. */
  method RunOnWire(s: Scenario, cfg: RoutedConfig, routers: seq<Name>, sandboxes: seq<Sandbox>, n: nat,
                   ghost mapped: string)
    returns (r: Result<()>)
    requires s.Quiet() && s.Wire() == [] && cfg.start.Valid() && RandomNames(routers)
    modifies s, s.nbctl
    ensures r.Success? <==> forall t | 0 <= t < n :: RoutedFits(cfg, routers, sandboxes, First(cfg, t))
    ensures var left := RunBatches(Start(routers), Batches(s.Wire()));
            r.Success? && n > 0 ==>
              && (left.ok <==> Accepted(cfg, routers))
              && (left.ok ==> PeerIntegrity(left.db) && AllInPlace(cfg, routers, sandboxes, left.db, n))
              && (left.ok && Reachable(cfg, sandboxes, mapped) ==>
                    AllClosed(OutsideOf(sandboxes, cfg.gateways.value.startExt, mapped, First(cfg, n)), left.db))
  {
    hide ApplyAll, RunCmds, RoutedFits, AllClosed, OutsideOf, PeerIntegrity, Start, Left, First, Accepted,
         RunBatches, Scenario.Invokes, RandomNames, Reachable, AllInPlace;
    r := RunIterations(s, cfg, routers, sandboxes, n);
    if r.Success? && n > 0 {
      assert [] + RunCmds(cfg, routers, sandboxes, n) == RunCmds(cfg, routers, sandboxes, n);
      PeersInEveryRun(cfg, routers, sandboxes, n);
      if Reachable(cfg, sandboxes, mapped) {
        RoutingClosure(cfg, routers, sandboxes, mapped, n);
      }
      AnyBatching(routers, RunCmds(cfg, routers, sandboxes, n), Batches(s.Wire()));
    }
  }

  // ---- addresses computed in several places

  lemma {:induction false} FlattenOnes<T>(lists: seq<seq<T>>, m: nat)
    requires m < |lists| && forall i | 0 <= i < |lists| :: |lists[i]| == 1
    ensures |Flatten(lists)| == |lists| && Flatten(lists)[m] == lists[m][0]
  {
    if m > 0 {
      FlattenOnes(lists[1..], m - 1);
    } else if |lists| > 1 {
      FlattenOnes(lists[1..], 0);
    }
  }

  lemma ManagementPort(cfg: RoutedConfig, f: nat, m: nat)
    requires m < cfg.amount && cfg.gateways.Some?
    ensures var lports := RoutedLports(cfg, f);
            |lports| == cfg.amount && lports[m].extGw == Some(cfg.gateways.value.startExt.At(f + m).Gateway(2))
  {
    var nets := Lswitches(cfg.start.At(f), cfg.amount);
    AtComposes(cfg.gateways.value.startExt, f, m);
    FlattenOnes(LportLists(nets, 1, 1, ExtStart(cfg, f)), m);
  }

  /** What an iteration reports of a gateway: its network and router, the names of what was made for it, and
      the addresses from the end of its two subnets. */
  lemma ReportedGateway(cfg: RoutedConfig, routers: seq<Name>, f: nat, m: nat)
    requires cfg.gateways.Some? && m < |RoutedDps(cfg, routers, f)|
    ensures var dp, g := RoutedDps(cfg, routers, f)[m], cfg.gateways.value;
            var net, join, ext := cfg.start.At(f + m), g.startGw.At(f + m), g.startExt.At(f + m);
            && m < |Assigned(cfg.amount, routers, cfg.npr)| <= cfg.amount && RouterOf(cfg, routers, m) == Some(dp.router)
            && dp == Dp(Lswitch(LSwitch(net), net), dp.router, JoinSwitch(join), GwRouter(join), ExtSwitch(ext),
                        ext.Last() - 2, join.Last() - 2, join.Last() - 1)
  {
    var env := Env(cfg, cfg.gateways.value, routers, []);
    AssignedFits(cfg.amount, routers, cfg.npr);
    OwnerAt(cfg, routers, m);
    DpAt(env, f, Lswitches(env.Net(f), cfg.amount), Assigned(cfg.amount, routers, cfg.npr), m);
  }

  /** The ping target of the management port of network m, the default gateway of the gateway router of
      network m and the address of the external host of its global index, wherever there is one, are one
      address, and that host routes back through the external port of that gateway router. */
  lemma ExternalAddressesAgree(cfg: RoutedConfig, routers: seq<Name>, sandboxes: seq<Sandbox>, f: nat, m: nat)
    requires cfg.gateways.Some? && m < |RoutedDps(cfg, routers, f)|
    ensures var ext, dp, lports := cfg.gateways.value.startExt, RoutedDps(cfg, routers, f)[m], RoutedLports(cfg, f);
            && dp.network.cidr == cfg.start.At(f + m) && dp.ext == ExtSwitch(ext.At(f + m))
            && m < |lports| && lports[m].extGw == Some(dp.defGw)
            && (Host(sandboxes, ext, f + m).Success? ==>
                  && Host(sandboxes, ext, f + m).value.ip == dp.defGw
                  && Host(sandboxes, ext, f + m).value.defaultGw == ext.At(f + m).Iface(1).ip)
  {
    hide RoutedDps, RoutedLports, Cidr.At, Assigned, Cidr.Next, FarmMap, Cidr.Size;
    ReportedGateway(cfg, routers, f, m);
    ManagementPort(cfg, f, m);
  }

  lemma ManagementPortOf(cfg: RoutedConfig, f: nat, m: nat)
    requires m < cfg.amount
    ensures var lports, net := RoutedLports(cfg, f), cfg.start.At(f + m);
            && |lports| == cfg.amount && lports[m].name == Lp(net.ip + 1) && lports[m].ip == net.ip + 1
            && lports[m].gw == net.Gateway(1)
  {
    AtComposes(cfg.start, f, m);
    FlattenOnes(LportLists(Lswitches(cfg.start.At(f), cfg.amount), 1, 1, ExtStart(cfg, f)), m);
  }

  /** The gateway that a management port is told is the address of the router port on its switch, wherever
      there is one, and its own address is the one the database has for it. */
  lemma PortGatewayAgrees(cfg: RoutedConfig, routers: seq<Name>, sandboxes: seq<Sandbox>, d: Db, t: nat, m: nat)
    requires m < cfg.amount && cfg.mgmtPort && InPlace(cfg, routers, sandboxes, d, t, m)
    requires RoutedFits(cfg, routers, sandboxes, First(cfg, t))
    ensures var lports := RoutedLports(cfg, First(cfg, t));
            && m < |lports| && lports[m].name in d.lsps && d.lsps[lports[m].name].address == Ip(lports[m].ip)
            && (RouterOf(cfg, routers, m).Some? ==>
                  var side := d.lsps[lports[m].name].switch;
                  side in d.lrps && d.lrps[side].net.ip == lports[m].gw)
  {
    ManagementPortOf(cfg, First(cfg, t), m);
    OwnerAt(cfg, routers, m);
    AtComposes(cfg.start, First(cfg, t), m);
    hide RoutedLports, GatewayInPlace, First, GatewaysFit, LportsFit, Assigned, Configured;
    assert m < Min(|Assigned(cfg.amount, routers, cfg.npr)|, cfg.amount) ==>
        Lswitches(cfg.start.At(First(cfg, t)), cfg.amount)[m].cidr.Gateway(1) >= 0;
  }

  /** Networks of different iterations, or of one, never share a join or an external subnet. */
  lemma SubnetsDisjoint(cfg: RoutedConfig, c: Cidr, t: nat, m: nat, u: nat, n: nat)
    requires m < cfg.amount && n < cfg.amount && (t != u || m != n)
    ensures First(cfg, t) + m != First(cfg, u) + n
    ensures Disjoint(c.At(First(cfg, t) + m), c.At(First(cfg, u) + n))
  {
    DivModUnique(First(cfg, t) + m, cfg.amount, t, m);
    DivModUnique(First(cfg, u) + n, cfg.amount, u, n);
    NextDisjoint(c, First(cfg, t) + m, First(cfg, u) + n);
  }

  /** The ping target of a port is the default gateway of some gateway router of the iteration exactly
      when the port's network found a router. */
  lemma PingTargetRoutedIff(cfg: RoutedConfig, routers: seq<Name>, t: nat, m: nat)
    requires cfg.gateways.Some? && m < cfg.amount
    ensures var dps := RoutedDps(cfg, routers, First(cfg, t));
            var target := cfg.gateways.value.startExt.At(First(cfg, t)).At(m).Gateway(2);
            (exists i :: 0 <= i < |dps| && dps[i].defGw == target) <==> m < |routers| * cfg.npr
  {
    var f, g := First(cfg, t), cfg.gateways.value;
    var e := g.startExt.At(f);
    var dps := RoutedDps(cfg, routers, f);
    AssignedFits(cfg.amount, routers, cfg.npr);
    AssignedLength(cfg.amount, routers, cfg.npr);
    DpsCount(Lswitches(cfg.start.At(f), cfg.amount), Assigned(cfg.amount, routers, cfg.npr), g.startGw.At(f), e);
    forall i | 0 <= i < |dps|
      ensures dps[i].defGw == e.At(m).Gateway(2) <==> i == m
    {
      if i != m {
        FactorGrows(e.Size(), i - m);
        assert e.Size() * (i - m) == i * e.Size() - m * e.Size();
      }
    }
    if m < |dps| {
      assert dps[m].defGw == e.At(m).Gateway(2);
    }
  }
}
