/** What the routed topology looks like in the database, after any number of iterations. */
module TopologyDb {
  import opened Common
  import opened Cidrs
  import opened NorthDb
  import opened NbCtls
  import opened Builders
  import opened Topology

  // ---- the properties

  /** Every switch port of type router names an existing router port, and every router port is named
      by exactly one of them. */
  ghost predicate PeerIntegrity(db: Db) {
    && (forall p | p in db.lsps && db.lsps[p].kind.RouterKind? ::
          db.lsps[p].peer.Some? && db.lsps[p].peer.value in db.lrps)
    && (forall q | q in db.lrps :: exists p :: Names(db, p, q) && forall o | Names(db, o, q) :: o == p)
  }

  ghost predicate Names(db: Db, p: Name, q: Name) {
    p in db.lsps && db.lsps[p].kind.RouterKind? && db.lsps[p].peer == Some(q)
  }

  /** A host on br-ex of a container, as add_chassis_external_hosts sets it up. */
  datatype ExtHost = ExtHost(container: nat, ip: int, defaultGw: int)

  /** Outside the database: the external hosts, and the network name that a chassis maps to br-ex. */
  datatype Outside = Outside(hosts: set<ExtHost>, mappings: map<nat, string>)

  /** Two router ports whose switch ports are on one switch. */
  ghost predicate Adjacent(db: Db, q: Name, o: Name) {
    exists p, u :: Names(db, p, q) && Names(db, u, o) && db.lsps[p].switch == db.lsps[u].switch
  }

  /** The port q is on a switch that a localnet port bridges to br-ex of the chassis of its router, where h
      is: the chassis maps that port's network name. */
  ghost predicate Bridged(db: Db, out: Outside, q: Name, h: ExtHost) {
    && q in db.lrps && db.lrps[q].router in db.chassis && db.chassis[db.lrps[q].router] == h.container
    && h.container in out.mappings
    && exists p, u :: Names(db, p, q) && u in db.lsps && db.lsps[u].kind.Localnet?
                      && db.lsps[u].physnet == Some(out.mappings[h.container])
                      && db.lsps[p].switch == db.lsps[u].switch
  }

  /** The next hop of a route is in a subnet attached to its router, and is the address of a port of
      another router on that switch, or of an external host there that routes back. */
  ghost predicate RouteClosed(db: Db, out: Outside, r: Route) {
    exists q :: Via(db, out, r, q)
  }

  ghost predicate Via(db: Db, out: Outside, r: Route, q: Name) {
    && q in db.lrps && db.lrps[q].router == r.router && db.lrps[q].net.Contains(r.nextHop)
    && ((exists o :: o in db.lrps && db.lrps[o].router != r.router && db.lrps[o].net.ip == r.nextHop
                     && Adjacent(db, q, o))
        || (exists h :: h in out.hosts && h.ip == r.nextHop && h.defaultGw == db.lrps[q].net.ip && Bridged(db, out, q, h)))
  }

  // ---- the effect of each group of commands

  /** The switch port of a router port, by name. */
  function Attach(q: Name): Name {
    match q
    case LSwitch(_) => Rp(q)
    case Rpj(g) => Jrp(g)
    case Grpj(g) => Jrpg(g)
    case Grpe(e) => Erpg(e)
    case _ => q
  }

  /** PeerIntegrity with the one switch port spelled out. */
  ghost predicate Peered(lsps: map<Name, Lsp>, lrps: map<Name, Lrp>) {
    && (forall q | q in lrps :: Attach(q) in lsps && lsps[Attach(q)].kind.RouterKind? && lsps[Attach(q)].peer == Some(q))
    && (forall p | p in lsps && lsps[p].kind.RouterKind? ::
          lsps[p].peer.Some? && lsps[p].peer.value in lrps && Attach(lsps[p].peer.value) == p)
  }

  lemma PeeredIsIntegrity(db: Db)
    requires Peered(db.lsps, db.lrps)
    ensures PeerIntegrity(db)
  {
    forall q | q in db.lrps
      ensures exists p :: Names(db, p, q) && forall o | Names(db, o, q) :: o == p
    {
      assert Names(db, Attach(q), q);
    }
  }

  function RouterPort(switch: Name, q: Name): Lsp {
    Lsp(switch, RouterKind, Some(q), NoAddress, None, false)
  }

  function LocalnetPort(switch: Name, physnet: string): Lsp {
    Lsp(switch, Localnet, None, Unknown, Some(physnet), false)
  }

  function VifPort(switch: Name, ip: nat, security: bool): Lsp {
    Lsp(switch, Vif, None, Ip(ip), None, security)
  }

  function ConfigAfter(config: map<(Name, string), string>, name: Name, settings: Settings): map<(Name, string), string> {
    if settings == [] then config
    else
      var n := |settings| - 1;
      ConfigAfter(config, name, settings[..n])[(name, settings[n].0) := settings[n].1]
  }

  /** The last setting for each key stands. */
  predicate Configured(db: Db, name: Name, settings: Settings) {
    forall i | 0 <= i < |settings| && (forall j | i < j < |settings| :: settings[j].0 != settings[i].0) ::
      (name, settings[i].0) in db.config && db.config[(name, settings[i].0)] == settings[i].1
  }

  function WithSwitch(db: Db, net: Cidr, settings: Settings): Db {
    db.(switches := db.switches + {LSwitch(net)}, config := ConfigAfter(db.config, LSwitch(net), settings))
  }

  function WithConnection(db: Db, router: Name, sw: Lswitch): Db {
    db.(lrps := db.lrps[sw.name := Lrp(router, sw.cidr.Iface(1))],
        lsps := db.lsps[Rp(sw.name) := RouterPort(sw.name, sw.name)])
  }

  function WithJoin(db: Db, router: Name, g: Cidr): Db {
    db.(switches := db.switches + {JoinSwitch(g)}, lrps := db.lrps[Rpj(g) := Lrp(router, g.Iface(1))],
        lsps := db.lsps[Jrp(g) := RouterPort(JoinSwitch(g), Rpj(g))])
  }

  function WithGwRouter(db: Db, g: Cidr, container: nat): Db {
    db.(routers := db.routers + {GwRouter(g)}, chassis := db.chassis[GwRouter(g) := container],
        lrps := db.lrps[Grpj(g) := Lrp(GwRouter(g), g.Iface(2))],
        lsps := db.lsps[Jrpg(g) := RouterPort(JoinSwitch(g), Grpj(g))])
  }

  function WithExternal(db: Db, g: Cidr, e: Cidr): Db {
    db.(switches := db.switches + {ExtSwitch(e)}, lrps := db.lrps[Grpe(e) := Lrp(GwRouter(g), e.Iface(1))],
        lsps := db.lsps[Erpg(e) := RouterPort(ExtSwitch(e), Grpe(e))])
  }

  function WithGateway(db: Db, router: Name, g: Cidr, e: Cidr, container: nat): Db {
    WithExternal(WithGwRouter(WithJoin(db, router, g), g, container), g, e)
  }

  function WithPhynet(db: Db, switch: Name, physnet: string): Db {
    db.(lsps := db.lsps[Provnet(switch) := LocalnetPort(switch, physnet)])
  }

  function RoutesOf(dp: Dp, cluster: Cidr): set<Route> {
    {Route(dp.gwRouter, DEFAULT_ROUTE, dp.defGw, false), Route(dp.gwRouter, cluster, dp.rpGw, false),
     Route(dp.router, dp.network.cidr, dp.gw, true)}
  }

  function WithRoutes(db: Db, dp: Dp, cluster: Cidr): Db {
    db.(routes := db.routes + RoutesOf(dp, cluster), nats := db.nats + {(dp.gwRouter, dp.gw, cluster)},
        snat := db.snat[dp.gwRouter := dp.gw])
  }

  function WithPort(db: Db, switch: Name, ip: nat, security: bool): Db {
    db.(lsps := db.lsps[Lp(ip) := VifPort(switch, ip, security)])
  }

  /** One more command after a list that was accepted. */
  lemma Step(db: Db, cmds: seq<Cmd>, cmd: Cmd)
    ensures ApplyAll(db, cmds).Success? ==> ApplyAll(db, cmds + [cmd]) == Apply(ApplyAll(db, cmds).value, cmd)
  {
    ApplyConcat(db, cmds, [cmd]);
    if ApplyAll(db, cmds).Success? {
      var next := ApplyAll(db, cmds).value;
      assert [cmd][1..] == [];
      assert Apply(next, cmd).Success? ==> ApplyAll(Apply(next, cmd).value, []) == Apply(next, cmd);
    }
  }

  predicate Accepts(db: Db, cmd: Cmd, next: Db) {
    Apply(db, cmd) == Success(next)
  }

  /** A list of commands, each accepted and leading from one database to the next. */
  lemma {:induction false} Steps(cmds: seq<Cmd>, dbs: seq<Db>)
    requires |dbs| == |cmds| + 1 && forall i | 0 <= i < |cmds| :: Accepts(dbs[i], cmds[i], dbs[i + 1])
    ensures ApplyAll(dbs[0], cmds) == Success(dbs[|cmds|])
  {
    if cmds == [] {
    } else {
      Steps(cmds[1..], dbs[1..]);
    }
  }

  predicate FreshSwitch(db: Db, net: Cidr) {
    LSwitch(net) !in db.switches && forall k | k in db.config :: k.0 != LSwitch(net)
  }

  predicate FreshConnection(db: Db, net: Cidr) {
    LSwitch(net) !in db.lrps && Rp(LSwitch(net)) !in db.lsps
  }

  predicate FreshGw(db: Db, g: Cidr) {
    && JoinSwitch(g) !in db.switches && GwRouter(g) !in db.routers
    && Rpj(g) !in db.lrps && Jrp(g) !in db.lsps && Grpj(g) !in db.lrps && Jrpg(g) !in db.lsps
  }

  predicate FreshExt(db: Db, e: Cidr) {
    ExtSwitch(e) !in db.switches && Grpe(e) !in db.lrps && Erpg(e) !in db.lsps
  }

  predicate FreshPhynet(db: Db, e: Cidr) {
    Provnet(ExtSwitch(e)) !in db.lsps
  }

  predicate FreshRoutes(db: Db, g: Cidr, net: Cidr) {
    && (forall r | r in db.routes :: r.router != GwRouter(g) && !(r.srcIp && r.dst.Network() == net.Network()))
    && (forall o | o in db.nats :: o.0 != GwRouter(g)) && GwRouter(g) !in db.snat
  }

  ghost predicate FreshPorts(db: Db, net: Cidr) {
    forall ip: nat | net.Contains(ip) :: Lp(ip) !in db.lsps
  }

  lemma {:induction false} ConfigApplied(db: Db, name: Name, settings: Settings)
    requires name in db.switches
    ensures ApplyAll(db, ConfigCmds(name, settings)) == Success(db.(config := ConfigAfter(db.config, name, settings)))
    decreases |settings|
  {
    if settings == [] {
    } else {
      hide ApplyAll;
      var n := |settings| - 1;
      ConfigApplied(db, name, settings[..n]);
      assert ConfigCmds(name, settings) == ConfigCmds(name, settings[..n]) + [SetSwitchConfig(name, settings[n].0, settings[n].1)];
      Step(db, ConfigCmds(name, settings[..n]), SetSwitchConfig(name, settings[n].0, settings[n].1));
    }
  }

  lemma {:induction false} LastSetting(config: map<(Name, string), string>, name: Name, settings: Settings, i: nat)
    requires i < |settings| && forall j | i < j < |settings| :: settings[j].0 != settings[i].0
    ensures var c := ConfigAfter(config, name, settings);
            (name, settings[i].0) in c && c[(name, settings[i].0)] == settings[i].1
    decreases |settings|
  {
    var n := |settings| - 1;
    if i < n {
      LastSetting(config, name, settings[..n], i);
    }
  }

  /** Configuring one record leaves each key with its last value ... */
  lemma ConfigAfterIs(db: Db, name: Name, settings: Settings)
    ensures Configured(db.(config := ConfigAfter(db.config, name, settings)), name, settings)
  {
    hide ConfigAfter;
    forall i: nat | i < |settings| && (forall j | i < j < |settings| :: settings[j].0 != settings[i].0)
      ensures var c := ConfigAfter(db.config, name, settings);
              (name, settings[i].0) in c && c[(name, settings[i].0)] == settings[i].1
    {
      LastSetting(db.config, name, settings, i);
    }
  }

  /** ... and the other records as they were. */
  lemma {:induction false} ConfigBeside(config: map<(Name, string), string>, name: Name, settings: Settings)
    ensures forall k | k in ConfigAfter(config, name, settings) :: k in config || k.0 == name
    ensures forall k | k in config && k.0 != name ::
              k in ConfigAfter(config, name, settings) && ConfigAfter(config, name, settings)[k] == config[k]
    decreases |settings|
  {
    if settings == [] {
    } else {
      ConfigBeside(config, name, settings[..|settings| - 1]);
    }
  }

  /** A switch is added with its settings. */
  lemma SwitchApplied(db: Db, net: Cidr, settings: Settings)
    requires FreshSwitch(db, net)
    ensures ApplyAll(db, SwitchCmds(net, settings)) == Success(WithSwitch(db, net, settings))
    ensures Configured(WithSwitch(db, net, settings), LSwitch(net), settings)
  {
    NamedSwitchApplied(db, LSwitch(net), settings);
  }

  /** The same of a switch of any name. */
  lemma NamedSwitchApplied(db: Db, name: Name, settings: Settings)
    requires name !in db.switches
    ensures var d := db.(switches := db.switches + {name}, config := ConfigAfter(db.config, name, settings));
            ApplyAll(db, [LsAdd(name)] + ConfigCmds(name, settings)) == Success(d) && Configured(d, name, settings)
  {
    hide Configured, ConfigCmds, ConfigAfter;
    var d := db.(switches := db.switches + {name});
    Step(db, [], LsAdd(name));
    assert [] + [LsAdd(name)] == [LsAdd(name)];
    ApplyConcat(db, [LsAdd(name)], ConfigCmds(name, settings));
    ConfigApplied(d, name, settings);
    ConfigAfterIs(d, name, settings);
  }

  lemma ConnectionApplied(db: Db, router: Name, sw: Lswitch)
    requires sw.name == LSwitch(sw.cidr) && FreshConnection(db, sw.cidr) && router in db.routers && sw.name in db.switches
    ensures ApplyAll(db, ConnectCmds(router, sw)) == Success(WithConnection(db, router, sw))
  {
    var cmds := ConnectCmds(router, sw);
    var d1 := Apply(db, cmds[0]).value;
    var d2 := Apply(d1, cmds[1]).value;
    Steps(cmds, [db, d1, d2, Apply(d2, cmds[2]).value]);
    assert Apply(d2, cmds[2]).value.lsps == WithConnection(db, router, sw).lsps;
  }

  lemma JoinApplied(db: Db, router: Name, g: Cidr)
    requires FreshGw(db, g) && router in db.routers
    ensures ApplyAll(db, JoinCmds(router, g)) == Success(WithJoin(db, router, g))
  {
    var d1 := db.(switches := db.switches + {JoinSwitch(g)});
    var d2 := d1.(lrps := d1.lrps[Rpj(g) := Lrp(router, g.Iface(1))]);
    var d3 := d2.(lsps := d2.lsps[Jrp(g) := NewPort(JoinSwitch(g))]);
    assert d3.lsps[Jrp(g) := RouterPort(JoinSwitch(g), Rpj(g))] == WithJoin(db, router, g).lsps;
    Steps(JoinCmds(router, g), [db, d1, d2, d3, WithJoin(db, router, g)]);
  }

  lemma GwRouterApplied(db: Db, g: Cidr, container: nat)
    requires GwRouter(g) !in db.routers && Grpj(g) !in db.lrps && Jrpg(g) !in db.lsps && JoinSwitch(g) in db.switches
    ensures ApplyAll(db, GwRouterCmds(g, container)) == Success(WithGwRouter(db, g, container))
  {
    var d1 := db.(routers := db.routers + {GwRouter(g)});
    var d2 := d1.(chassis := d1.chassis[GwRouter(g) := container]);
    var d3 := d2.(lrps := d2.lrps[Grpj(g) := Lrp(GwRouter(g), g.Iface(2))]);
    var d4 := d3.(lsps := d3.lsps[Jrpg(g) := NewPort(JoinSwitch(g))]);
    assert d4.lsps[Jrpg(g) := RouterPort(JoinSwitch(g), Grpj(g))]
           == WithGwRouter(db, g, container).lsps;
    Steps(GwRouterCmds(g, container), [db, d1, d2, d3, d4, WithGwRouter(db, g, container)]);
  }

  lemma ExternalApplied(db: Db, g: Cidr, e: Cidr)
    requires FreshExt(db, e) && GwRouter(g) in db.routers
    ensures ApplyAll(db, ExternalCmds(g, e)) == Success(WithExternal(db, g, e))
  {
    var d1 := db.(switches := db.switches + {ExtSwitch(e)});
    var d2 := d1.(lrps := d1.lrps[Grpe(e) := Lrp(GwRouter(g), e.Iface(1))]);
    var d3 := d2.(lsps := d2.lsps[Erpg(e) := NewPort(ExtSwitch(e))]);
    assert d3.lsps[Erpg(e) := RouterPort(ExtSwitch(e), Grpe(e))] == WithExternal(db, g, e).lsps;
    Steps(ExternalCmds(g, e), [db, d1, d2, d3, WithExternal(db, g, e)]);
  }

  lemma GatewayApplied(db: Db, router: Name, g: Cidr, e: Cidr, container: nat)
    requires FreshGw(db, g) && FreshExt(db, e) && router in db.routers
    ensures ApplyAll(db, GatewayCmds(router, g, e, container)) == Success(WithGateway(db, router, g, e, container))
  {
    var d1 := WithJoin(db, router, g);
    var d2 := WithGwRouter(d1, g, container);
    JoinApplied(db, router, g);
    GwRouterApplied(d1, g, container);
    ExternalApplied(d2, g, e);
    ApplyConcat(db, JoinCmds(router, g), GwRouterCmds(g, container));
    ApplyConcat(db, JoinCmds(router, g) + GwRouterCmds(g, container), ExternalCmds(g, e));
  }

  lemma PhynetApplied(db: Db, switch: Name, physnet: string)
    requires switch in db.switches && Provnet(switch) !in db.lsps
    ensures ApplyAll(db, PhynetCmds(switch, physnet)) == Success(WithPhynet(db, switch, physnet))
    ensures var p := WithPhynet(db, switch, physnet).lsps[Provnet(switch)];
            p.switch == switch && p.kind.Localnet? && p.physnet == Some(physnet) && p.address.Unknown?
  {
    var port := Provnet(switch);
    var d1 := db.(lsps := db.lsps[port := NewPort(switch)]);
    var d2 := d1.(lsps := d1.lsps[port := NewPort(switch).(address := Unknown)]);
    var d3 := d2.(lsps := d2.lsps[port := NewPort(switch).(address := Unknown, kind := Localnet)]);
    assert d3.lsps[port := LocalnetPort(switch, physnet)] == WithPhynet(db, switch, physnet).lsps;
    Steps(PhynetCmds(switch, physnet), [db, d1, d2, d3, WithPhynet(db, switch, physnet)]);
  }

  lemma RouteApplied(db: Db, r: Route)
    requires r.router in db.routers
    requires forall o | o in db.routes :: o.router != r.router || o.dst.Network() != r.dst.Network() || o.srcIp != r.srcIp
    ensures Apply(db, RouteAdd(r)) == Success(db.(routes := db.routes + {r}))
  {
  }

  lemma RouteRefused(db: Db, r: Route, o: Route)
    requires o in db.routes && o.router == r.router && o.dst.Network() == r.dst.Network() && o.srcIp == r.srcIp
    ensures Apply(db, RouteAdd(r)).Failure?
  {
  }

  /** With a gateway's routes still free, its route commands are accepted exactly when the cluster is not
      the default route, which the gateway router has by then. */
  lemma RoutesApplied(db: Db, dp: Dp, g: Cidr, cluster: Cidr)
    requires FreshRoutes(db, g, dp.network.cidr) && dp.gwRouter == GwRouter(g) && dp.router.Random?
    requires dp.gwRouter in db.routers && dp.router in db.routers
    ensures ApplyAll(db, RouteCmds(dp, cluster)).Success? <==> cluster.Network() != DEFAULT_ROUTE
    ensures cluster.Network() != DEFAULT_ROUTE ==> ApplyAll(db, RouteCmds(dp, cluster)) == Success(WithRoutes(db, dp, cluster))
  {
    var r1 := Route(dp.gwRouter, DEFAULT_ROUTE, dp.defGw, false);
    var r2 := Route(dp.gwRouter, cluster, dp.rpGw, false);
    var d1 := db.(snat := db.snat[dp.gwRouter := dp.gw]);
    var d2 := d1.(routes := db.routes + {r1});
    var cmds := RouteCmds(dp, cluster);
    RouteApplied(d1, r1);
    Steps([SetForceSnat(dp.gwRouter, dp.gw), RouteAdd(r1)], [db, d1, d2]);
    assert cmds == cmds[..2] + cmds[2..] && cmds[..2] == [SetForceSnat(dp.gwRouter, dp.gw), RouteAdd(r1)];
    ApplyConcat(db, cmds[..2], cmds[2..]);
    if cluster.Network() == DEFAULT_ROUTE {
      RouteRefused(d2, r2, r1);
      assert cmds[2..][0] == RouteAdd(r2);
    } else {
      LaterRoutesApplied(db, d2, dp, g, cluster);
    }
  }

  /** The commands after the default route. */
  lemma LaterRoutesApplied(db: Db, d2: Db, dp: Dp, g: Cidr, cluster: Cidr)
    requires FreshRoutes(db, g, dp.network.cidr) && dp.gwRouter == GwRouter(g) && dp.router.Random?
    requires dp.gwRouter in db.routers && dp.router in db.routers && cluster.Network() != DEFAULT_ROUTE
    requires d2 == db.(routes := db.routes + {Route(dp.gwRouter, DEFAULT_ROUTE, dp.defGw, false)},
                       snat := db.snat[dp.gwRouter := dp.gw])
    ensures ApplyAll(d2, RouteCmds(dp, cluster)[2..]) == Success(WithRoutes(db, dp, cluster))
  {
    var r2 := Route(dp.gwRouter, cluster, dp.rpGw, false);
    var r3 := Route(dp.router, dp.network.cidr, dp.gw, true);
    var d3 := d2.(routes := d2.routes + {r2});
    var d4 := d3.(routes := d3.routes + {r3});
    RouteApplied(d2, r2);
    RouteApplied(d3, r3);
    assert d4.routes == db.routes + RoutesOf(dp, cluster);
    assert RouteCmds(dp, cluster)[2..] == [RouteAdd(r2), RouteAdd(r3), NatAdd(dp.gwRouter, dp.gw, cluster)];
    Steps([RouteAdd(r2), RouteAdd(r3), NatAdd(dp.gwRouter, dp.gw, cluster)], [d2, d3, d4, WithRoutes(db, dp, cluster)]);
  }

  lemma PortApplied(db: Db, switch: Name, ip: nat, security: bool)
    requires switch in db.switches && Lp(ip) !in db.lsps
    ensures ApplyAll(db, PortCmds(switch, ip, security)) == Success(WithPort(db, switch, ip, security))
    ensures var p := WithPort(db, switch, ip, security).lsps[Lp(ip)];
            p.switch == switch && p.kind.Vif? && p.address == Ip(ip) && p.secured == security
  {
    var d1 := db.(lsps := db.lsps[Lp(ip) := NewPort(switch)]);
    var d2, d := WithPort(db, switch, ip, false), WithPort(db, switch, ip, security);
    assert d1.lsps[Lp(ip) := VifPort(switch, ip, false)] == d2.lsps;
    assert d2.lsps[Lp(ip) := VifPort(switch, ip, true)] == WithPort(db, switch, ip, true).lsps;
    Steps(PortCmds(switch, ip, security), if security then [db, d1, d2, d] else [db, d1, d]);
  }

  // ---- what every step keeps

  ghost predicate Grows(a: Db, b: Db) {
    && a.switches <= b.switches && a.routers <= b.routers && a.routes <= b.routes && a.nats <= b.nats
    && (forall k | k in a.config :: k in b.config && b.config[k] == a.config[k])
    && (forall r | r in a.snat :: r in b.snat && b.snat[r] == a.snat[r])
    && (forall p | p in a.lsps :: p in b.lsps && b.lsps[p] == a.lsps[p])
    && (forall q | q in a.lrps :: q in b.lrps && b.lrps[q] == a.lrps[q])
    && (forall r | r in a.chassis :: r in b.chassis && b.chassis[r] == a.chassis[r])
  }

  /** A closed route stays closed while the topology only grows. */
  lemma ClosedGrows(a: Db, b: Db, out: Outside, r: Route)
    requires Grows(a, b) && RouteClosed(a, out, r)
    ensures RouteClosed(b, out, r)
  {
    var q :| Via(a, out, r, q);
    if o :| o in a.lrps && a.lrps[o].router != r.router && a.lrps[o].net.ip == r.nextHop && Adjacent(a, q, o) {
      var p, u :| Names(a, p, q) && Names(a, u, o) && a.lsps[p].switch == a.lsps[u].switch;
      assert Names(b, p, q) && Names(b, u, o);
      assert Adjacent(b, q, o);
    } else {
      var h :| h in out.hosts && h.ip == r.nextHop && h.defaultGw == a.lrps[q].net.ip && Bridged(a, out, q, h);
      var p, u :| Names(a, p, q) && u in a.lsps && a.lsps[u].kind.Localnet? && a.lsps[p].switch == a.lsps[u].switch
                  && a.lsps[u].physnet == Some(out.mappings[h.container]);
      assert Names(b, p, q);
      assert Bridged(b, out, q, h);
    }
    assert Via(b, out, r, q);
  }

  /** A router port and its switch port, added together, keep the pairing ... */
  lemma PairAdded(lsps: map<Name, Lsp>, lrps: map<Name, Lrp>, q: Name, lrp: Lrp, switch: Name)
    requires Peered(lsps, lrps) && q !in lrps && Attach(q) !in lsps
    ensures Peered(lsps[Attach(q) := RouterPort(switch, q)], lrps[q := lrp])
  {
  }

  /** ... and so does any other new switch port. */
  lemma OtherAdded(lsps: map<Name, Lsp>, lrps: map<Name, Lrp>, p: Name, lsp: Lsp)
    requires Peered(lsps, lrps) && p !in lsps && !lsp.kind.RouterKind?
    ensures Peered(lsps[p := lsp], lrps)
  {
  }

  datatype Env = Env(cfg: RoutedConfig, g: GatewayConfig, routers: seq<Name>, sandboxes: seq<Sandbox>) {
    function Net(k: nat): Cidr {
      cfg.start.At(k)
    }

    function Gw(k: nat): Cidr {
      g.startGw.At(k)
    }

    function Ext(k: nat): Cidr {
      g.startExt.At(k)
    }

    /** Where the gateway router of global index k is bound. */
    function Box(k: nat): nat {
      if sandboxes == [] then 0 else sandboxes[k % |sandboxes|].container
    }

    /** The router that the network of global index k finds, if any. */
    function Owner(k: nat): Option<Name> {
      if cfg.amount > 0 then RouterOf(cfg, routers, k % cfg.amount) else None
    }

    ghost predicate Valid() {
      forall r | r in routers :: r.Random?
    }

    predicate ClusterFree() {
      g.cluster.Network() != DEFAULT_ROUTE
    }
  }

  /** How far the six loops have come, by global index of the next network. */
  datatype Mark = Mark(switch: nat, connection: nat, gateway: nat, phynet: nat, route: nat, port: nat)

  ghost predicate FreshFrom(env: Env, db: Db, m: Mark) {
    && (forall k: nat | k >= m.switch :: FreshSwitch(db, env.Net(k)))
    && (forall k: nat | k >= m.connection :: FreshConnection(db, env.Net(k)))
    && (forall k: nat | k >= m.gateway :: FreshGw(db, env.Gw(k)) && FreshExt(db, env.Ext(k)))
    && (forall k: nat | k >= m.phynet :: FreshPhynet(db, env.Ext(k)))
    && (forall k: nat | k >= m.route :: FreshRoutes(db, env.Gw(k), env.Net(k)))
    && (forall k: nat | k >= m.port :: FreshPorts(db, env.Net(k)))
  }

  /** Peers in pairs, the names of later steps free, and every route one of a gateway that is built. */
  ghost predicate Inv(env: Env, db: Db, m: Mark) {
    && Peered(db.lsps, db.lrps) && FreshFrom(env, db, m)
    && (forall r | r in env.routers :: r in db.routers) && (forall r | r in db.chassis :: r in db.routers)
    && AllWired(env, db, m.route) && Shaped(env, db, m.port)
  }

  /** The switch that a router port's switch port is on. */
  function SideSwitch(q: Name): Name {
    match q
    case Rpj(g) => JoinSwitch(g)
    case Grpj(g) => JoinSwitch(g)
    case Grpe(e) => ExtSwitch(e)
    case _ => q
  }

  ghost predicate LrpShaped(env: Env, q: Name, lrp: Lrp) {
    match q
    case LSwitch(_) => lrp.router.Random?
    case Rpj(g) => lrp.router.Random? && lrp.net == g.Iface(1) && exists k: nat :: g == env.Gw(k)
    case Grpj(g) => lrp == Lrp(GwRouter(g), g.Iface(2))
    case Grpe(e) => exists k: nat :: e == env.Ext(k) && lrp == Lrp(GwRouter(env.Gw(k)), e.Iface(1))
    case _ => false
  }

  predicate LspShaped(env: Env, lsp: Lsp) {
    && (lsp.kind.RouterKind? ==> lsp.peer.Some? && lsp.switch == SideSwitch(lsp.peer.value))
    && (lsp.kind.Localnet? ==> lsp.switch.ExtSwitch? && lsp.physnet == Some(env.g.physnet))
  }

  /** One of the first `ports` management ports. */
  ghost predicate Managed(env: Env, p: Name, ports: nat) {
    exists k: nat :: k < ports && p == Lp(env.Net(k).ip + 1)
  }

  /** What there is at most: every port where its name says, no addresses but those of the management
      ports, no groups. */
  ghost predicate Shaped(env: Env, db: Db, ports: nat) {
    && (forall q | q in db.lrps :: LrpShaped(env, q, db.lrps[q]))
    && (forall p | p in db.lsps :: LspShaped(env, db.lsps[p]) && (p.Lp? ==> Managed(env, p, ports)))
    && (forall r | r in db.chassis :: r.GwRouter?)
    && db.acls == {} && db.groups == map[] && db.addressSets == map[]
  }

  lemma SwitchShaped(env: Env, db: Db, ports: nat, net: Cidr, settings: Settings)
    requires Shaped(env, db, ports)
    ensures Shaped(env, WithSwitch(db, net, settings), ports)
  {
  }

  lemma ConnectionShaped(env: Env, db: Db, ports: nat, router: Name, sw: Lswitch)
    requires Shaped(env, db, ports) && router.Random? && sw.name == LSwitch(sw.cidr)
    ensures Shaped(env, WithConnection(db, router, sw), ports)
  {
    hide Managed;
  }

  lemma JoinShaped(env: Env, db: Db, ports: nat, router: Name, k: nat)
    requires Shaped(env, db, ports) && router.Random?
    ensures Shaped(env, WithJoin(db, router, env.Gw(k)), ports)
  {
    hide Managed, Env.Gw;
  }

  lemma GwRouterShaped(env: Env, db: Db, ports: nat, g: Cidr, container: nat)
    requires Shaped(env, db, ports)
    ensures Shaped(env, WithGwRouter(db, g, container), ports)
  {
    hide Managed;
  }

  lemma ExternalShaped(env: Env, db: Db, ports: nat, k: nat)
    requires Shaped(env, db, ports)
    ensures Shaped(env, WithExternal(db, env.Gw(k), env.Ext(k)), ports)
  {
    hide Managed, Env.Gw, Env.Ext;
  }

  lemma GatewayShaped(env: Env, db: Db, ports: nat, router: Name, k: nat, container: nat)
    requires Shaped(env, db, ports) && router.Random?
    ensures Shaped(env, WithGateway(db, router, env.Gw(k), env.Ext(k), container), ports)
  {
    hide Shaped, WithJoin, WithGwRouter, WithExternal;
    JoinShaped(env, db, ports, router, k);
    var d1 := WithJoin(db, router, env.Gw(k));
    GwRouterShaped(env, d1, ports, env.Gw(k), container);
    ExternalShaped(env, WithGwRouter(d1, env.Gw(k), container), ports, k);
  }

  lemma PhynetShaped(env: Env, db: Db, ports: nat, e: Cidr)
    requires Shaped(env, db, ports)
    ensures Shaped(env, WithPhynet(db, ExtSwitch(e), env.g.physnet), ports)
  {
    hide Managed, LrpShaped;
  }

  lemma PortShaped(env: Env, db: Db, ports: nat, switch: Name, security: bool)
    requires Shaped(env, db, ports)
    ensures Shaped(env, WithPort(db, switch, env.Net(ports).ip + 1, security), ports + 1)
  {
    hide Env.Net, LrpShaped;
    forall p | p in db.lsps && p.Lp?
      ensures Managed(env, p, ports + 1)
    {
      assert Managed(env, p, ports);
    }
  }

  lemma RoutesShaped(env: Env, db: Db, ports: nat, dp: Dp, cluster: Cidr)
    requires Shaped(env, db, ports)
    ensures Shaped(env, WithRoutes(db, dp, cluster), ports)
  {
    hide Managed, LrpShaped;
  }

  ghost predicate AllWired(env: Env, db: Db, end: nat) {
    forall r | r in db.routes :: RouteWired(env, db, r, end)
  }

  ghost predicate RouteWired(env: Env, db: Db, r: Route, end: nat) {
    exists k: nat, dp :: k < end && r in RoutesOf(dp, env.g.cluster) && WiredAt(env, db, k, dp)
  }

  /** The gateway of global index k is in place, localnet port included. */
  ghost predicate WiredAt(env: Env, db: Db, k: nat, dp: Dp) {
    && dp.router.Random? && dp == DpOf(dp.network, dp.router, env.Gw(k), env.Ext(k)) && dp.network.cidr == env.Net(k)
    && Built(db, dp.router, env.Gw(k), env.Ext(k), env.Box(k)) && HasPhynet(db, env.Ext(k), env.g.physnet)
    && env.sandboxes != [] && env.g.startExt.Next(k).Some? && env.Gw(k).Gateway(2) >= 0 && env.Owner(k) == Some(dp.router)
  }

  /** A gateway's routes, its forced SNAT address and its translation are there. */
  ghost predicate Served(db: Db, dp: Dp, cluster: Cidr) {
    && RoutesOf(dp, cluster) <= db.routes && (dp.gwRouter, dp.gw, cluster) in db.nats
    && dp.gwRouter in db.snat && db.snat[dp.gwRouter] == dp.gw
  }

  lemma ServedGrows(a: Db, b: Db, dp: Dp, cluster: Cidr)
    requires Grows(a, b)
    ensures Served(a, dp, cluster) ==> Served(b, dp, cluster)
  {
  }

  ghost predicate AllClosed(out: Outside, db: Db) {
    forall r | r in db.routes :: RouteClosed(db, out, r)
  }

  /** What the routes of a gateway rely on. */
  ghost predicate Built(db: Db, router: Name, g: Cidr, e: Cidr, container: nat) {
    && router in db.routers && GwRouter(g) in db.routers && ExtSwitch(e) in db.switches
    && Rpj(g) in db.lrps && db.lrps[Rpj(g)] == Lrp(router, g.Iface(1))
    && Grpj(g) in db.lrps && db.lrps[Grpj(g)] == Lrp(GwRouter(g), g.Iface(2))
    && Grpe(e) in db.lrps && db.lrps[Grpe(e)] == Lrp(GwRouter(g), e.Iface(1))
    && Names(db, Jrp(g), Rpj(g)) && db.lsps[Jrp(g)].switch == JoinSwitch(g)
    && Names(db, Jrpg(g), Grpj(g)) && db.lsps[Jrpg(g)].switch == JoinSwitch(g)
    && Names(db, Erpg(e), Grpe(e)) && db.lsps[Erpg(e)].switch == ExtSwitch(e)
    && GwRouter(g) in db.chassis && db.chassis[GwRouter(g)] == container
  }

  ghost predicate HasPhynet(db: Db, e: Cidr, physnet: string) {
    Provnet(ExtSwitch(e)) in db.lsps && db.lsps[Provnet(ExtSwitch(e))] == LocalnetPort(ExtSwitch(e), physnet)
  }

  lemma BuiltGrows(a: Db, b: Db, router: Name, g: Cidr, e: Cidr, container: nat)
    requires Grows(a, b)
    ensures Built(a, router, g, e, container) ==> Built(b, router, g, e, container)
  {
  }

  lemma PhynetGrows(a: Db, b: Db, e: Cidr, physnet: string)
    requires Grows(a, b)
    ensures HasPhynet(a, e, physnet) ==> HasPhynet(b, e, physnet)
  {
  }

  lemma WiredGrows(env: Env, a: Db, b: Db, k: nat, dp: Dp)
    requires Grows(a, b) && WiredAt(env, a, k, dp)
    ensures WiredAt(env, b, k, dp)
  {
    hide Grows, Built, HasPhynet, Cidr.At, Env.Owner, Cidr.Gateway;
    BuiltGrows(a, b, dp.router, env.Gw(k), env.Ext(k), env.Box(k));
    PhynetGrows(a, b, env.Ext(k), env.g.physnet);
  }

  lemma RouteStaysWired(env: Env, a: Db, b: Db, r: Route, i: nat, j: nat)
    requires Grows(a, b) && RouteWired(env, a, r, i) && i <= j
    ensures RouteWired(env, b, r, j)
  {
    hide Grows, RoutesOf, WiredAt;
    var k: nat, dp :| k < i && r in RoutesOf(dp, env.g.cluster) && WiredAt(env, a, k, dp);
    WiredGrows(env, a, b, k, dp);
  }

  /** Old routes stay wired while the topology only grows. */
  lemma RoutesStayWired(env: Env, a: Db, b: Db, new_: set<Route>, i: nat, j: nat)
    requires Grows(a, b) && b.routes == a.routes + new_ && AllWired(env, a, i) && i <= j
    requires forall r | r in new_ :: RouteWired(env, b, r, j)
    ensures AllWired(env, b, j)
  {
    hide Grows, RouteWired;
    forall r | r in b.routes
      ensures RouteWired(env, b, r, j)
    {
      if r in a.routes {
        RouteStaysWired(env, a, b, r, i, j);
      }
    }
  }

  lemma NoRouteAdded(env: Env, a: Db, b: Db, end: nat)
    requires Grows(a, b) && b.routes == a.routes && AllWired(env, a, end)
    ensures AllWired(env, b, end)
  {
    hide Grows, RouteWired;
    RoutesStayWired(env, a, b, {}, end, end);
  }

  /** No two networks of one chain have a name in common. */
  lemma Distinct(env: Env, n: nat)
    ensures forall k: nat | k != n ::
              env.Net(k) != env.Net(n) && env.Gw(k) != env.Gw(n) && env.Ext(k) != env.Ext(n)
              && Disjoint(env.Net(k), env.Net(n))
  {
    forall k: nat | k != n
      ensures env.Net(k) != env.Net(n) && env.Gw(k) != env.Gw(n) && env.Ext(k) != env.Ext(n)
              && Disjoint(env.Net(k), env.Net(n))
    {
      NextDisjoint(env.cfg.start, k, n);
      NextDisjoint(env.g.startGw, k, n);
      NextDisjoint(env.g.startExt, k, n);
    }
  }

  lemma SwitchKeeps(env: Env, db: Db, m: Mark)
    requires Inv(env, db, m)
    ensures var d := WithSwitch(db, env.Net(m.switch), env.cfg.settings); Inv(env, d, m.(switch := m.switch + 1)) && Grows(db, d)
  {
    hide Peered, AllWired, Shaped, ConfigAfter, Env.Net, Env.Gw, Env.Ext;
    Distinct(env, m.switch);
    SwitchShaped(env, db, m.port, env.Net(m.switch), env.cfg.settings);
    ConfigBeside(db.config, LSwitch(env.Net(m.switch)), env.cfg.settings);
    NoRouteAdded(env, db, WithSwitch(db, env.Net(m.switch), env.cfg.settings), m.route);
  }

  /** A connection takes no name that a later step needs. */
  lemma FreshBeside(env: Env, db: Db, m: Mark, router: Name, sw: Lswitch)
    requires FreshFrom(env, db, m) && sw == Lswitch(LSwitch(env.Net(m.connection)), env.Net(m.connection))
    ensures FreshFrom(env, WithConnection(db, router, sw), m.(connection := m.connection + 1))
  {
    hide Env.Net, Env.Gw, Env.Ext;
    Distinct(env, m.connection);
  }

  lemma ConnectionKeeps(env: Env, db: Db, m: Mark, router: Name, sw: Lswitch)
    requires Inv(env, db, m) && router.Random?
    requires sw == Lswitch(LSwitch(env.Net(m.connection)), env.Net(m.connection))
    ensures var d := WithConnection(db, router, sw); Inv(env, d, m.(connection := m.connection + 1)) && Grows(db, d)
  {
    hide Peered, AllWired, Shaped, Env.Net, Env.Gw, Env.Ext;
    ConnectionShaped(env, db, m.port, router, sw);
    assert FreshConnection(db, env.Net(m.connection));
    FreshBeside(env, db, m, router, sw);
    hide FreshFrom;
    PairAdded(db.lsps, db.lrps, sw.name, Lrp(router, sw.cidr.Iface(1)), sw.name);
    NoRouteAdded(env, db, WithConnection(db, router, sw), m.route);
  }

  lemma GatewayPeered(db: Db, router: Name, g: Cidr, e: Cidr, container: nat)
    requires Peered(db.lsps, db.lrps) && FreshGw(db, g) && FreshExt(db, e)
    ensures var d := WithGateway(db, router, g, e, container); Peered(d.lsps, d.lrps)
  {
    hide Peered;
    PairAdded(db.lsps, db.lrps, Rpj(g), Lrp(router, g.Iface(1)), JoinSwitch(g));
    var d1 := WithJoin(db, router, g);
    PairAdded(d1.lsps, d1.lrps, Grpj(g), Lrp(GwRouter(g), g.Iface(2)), JoinSwitch(g));
    var d2 := WithGwRouter(d1, g, container);
    PairAdded(d2.lsps, d2.lrps, Grpe(e), Lrp(GwRouter(g), e.Iface(1)), ExtSwitch(e));
  }

  lemma GrowsTwice(a: Db, b: Db, c: Db)
    requires Grows(a, b) && Grows(b, c)
    ensures Grows(a, c)
  {
  }

  lemma JoinGrows(db: Db, router: Name, g: Cidr)
    requires FreshGw(db, g)
    ensures Grows(db, WithJoin(db, router, g))
  {
  }

  lemma GwRouterGrows(db: Db, g: Cidr, container: nat)
    requires GwRouter(g) !in db.routers && Grpj(g) !in db.lrps && Jrpg(g) !in db.lsps && GwRouter(g) !in db.chassis
    ensures Grows(db, WithGwRouter(db, g, container))
  {
  }

  lemma ExternalGrows(db: Db, g: Cidr, e: Cidr)
    requires FreshExt(db, e)
    ensures Grows(db, WithExternal(db, g, e))
  {
  }

  lemma GatewayGrowsDb(db: Db, router: Name, g: Cidr, e: Cidr, container: nat)
    requires FreshGw(db, g) && FreshExt(db, e) && router in db.routers && forall r | r in db.chassis :: r in db.routers
    ensures var d := WithGateway(db, router, g, e, container);
            && Grows(db, d) && Built(d, router, g, e, container) && forall r | r in d.chassis :: r in d.routers
  {
    var d1 := WithJoin(db, router, g);
    var d2 := WithGwRouter(d1, g, container);
    FreshExtSteps(db, router, g, e, container, e);
    FreshExtSteps(d1, router, g, e, container, e);
    JoinGrows(db, router, g);
    GwRouterGrows(d1, g, container);
    ExternalGrows(d2, g, e);
    GatewayBuilt(db, router, g, e, container);
    hide Grows, Built, FreshExt;
    GrowsTwice(db, d1, d2);
    GrowsTwice(db, d2, WithExternal(d2, g, e));
  }

  lemma GatewayBuilt(db: Db, router: Name, g: Cidr, e: Cidr, container: nat)
    requires router in db.routers
    ensures Built(WithGateway(db, router, g, e, container), router, g, e, container)
  {
  }

  lemma FreshGwSteps(db: Db, router: Name, g: Cidr, e: Cidr, container: nat, g': Cidr)
    requires g' != g && FreshGw(db, g')
    ensures FreshGw(WithJoin(db, router, g), g') && FreshGw(WithGwRouter(db, g, container), g')
    ensures FreshGw(WithExternal(db, g, e), g')
  {
  }

  /** A gateway takes no name of another gateway ... */
  lemma FreshGwBeside(db: Db, router: Name, g: Cidr, e: Cidr, container: nat, g': Cidr)
    ensures g' != g && FreshGw(db, g') ==> FreshGw(WithGateway(db, router, g, e, container), g')
  {
    hide FreshGw, WithJoin, WithGwRouter, WithExternal;
    if g' != g && FreshGw(db, g') {
      FreshGwSteps(db, router, g, e, container, g');
      FreshGwSteps(WithJoin(db, router, g), router, g, e, container, g');
      FreshGwSteps(WithGwRouter(WithJoin(db, router, g), g, container), router, g, e, container, g');
    }
  }

  lemma FreshExtSteps(db: Db, router: Name, g: Cidr, e: Cidr, container: nat, e': Cidr)
    ensures FreshExt(db, e') ==> FreshExt(WithJoin(db, router, g), e') && FreshExt(WithGwRouter(db, g, container), e')
    ensures e' != e && FreshExt(db, e') ==> FreshExt(WithExternal(db, g, e), e')
  {
  }

  lemma FreshExtBeside(db: Db, router: Name, g: Cidr, e: Cidr, container: nat, e': Cidr)
    ensures e' != e && FreshExt(db, e') ==> FreshExt(WithGateway(db, router, g, e, container), e')
  {
    hide FreshExt, WithJoin, WithGwRouter, WithExternal;
    FreshExtSteps(db, router, g, e, container, e');
    FreshExtSteps(WithJoin(db, router, g), router, g, e, container, e');
    FreshExtSteps(WithGwRouter(WithJoin(db, router, g), g, container), router, g, e, container, e');
  }

  lemma FreshPhynetBeside(db: Db, router: Name, g: Cidr, e: Cidr, container: nat, e': Cidr)
    ensures FreshPhynet(db, e') ==> FreshPhynet(WithGateway(db, router, g, e, container), e')
  {
  }

  /** ... nor of a network. */
  lemma FreshNetBeside(db: Db, router: Name, g: Cidr, e: Cidr, container: nat, g': Cidr, net: Cidr)
    ensures var d := WithGateway(db, router, g, e, container);
            && (FreshSwitch(db, net) ==> FreshSwitch(d, net)) && (FreshConnection(db, net) ==> FreshConnection(d, net))
            && (FreshRoutes(db, g', net) ==> FreshRoutes(d, g', net)) && (FreshPorts(db, net) ==> FreshPorts(d, net))
  {
  }

  lemma GatewayFresh(env: Env, db: Db, m: Mark, router: Name, container: nat)
    requires FreshFrom(env, db, m)
    ensures FreshFrom(env, WithGateway(db, router, env.Gw(m.gateway), env.Ext(m.gateway), container),
                      m.(gateway := m.gateway + 1))
  {
    hide Env.Net, Env.Gw, Env.Ext, WithGateway, FreshGw, FreshExt, FreshSwitch, FreshConnection, FreshPhynet, FreshRoutes, FreshPorts;
    Distinct(env, m.gateway);
    var g, e := env.Gw(m.gateway), env.Ext(m.gateway);
    var d := WithGateway(db, router, g, e, container);
    forall k: nat
      ensures FreshSwitch(db, env.Net(k)) ==> FreshSwitch(d, env.Net(k))
      ensures FreshConnection(db, env.Net(k)) ==> FreshConnection(d, env.Net(k))
      ensures FreshRoutes(db, env.Gw(k), env.Net(k)) ==> FreshRoutes(d, env.Gw(k), env.Net(k))
      ensures FreshPorts(db, env.Net(k)) ==> FreshPorts(d, env.Net(k))
    {
      FreshNetBeside(db, router, g, e, container, env.Gw(k), env.Net(k));
    }
    forall k: nat
      ensures k != m.gateway && FreshGw(db, env.Gw(k)) ==> FreshGw(d, env.Gw(k))
      ensures k != m.gateway && FreshExt(db, env.Ext(k)) ==> FreshExt(d, env.Ext(k))
      ensures FreshPhynet(db, env.Ext(k)) ==> FreshPhynet(d, env.Ext(k))
    {
      FreshGwBeside(db, router, g, e, container, env.Gw(k));
      FreshExtBeside(db, router, g, e, container, env.Ext(k));
      FreshPhynetBeside(db, router, g, e, container, env.Ext(k));
    }
  }

  lemma FreshAt(env: Env, db: Db, m: Mark)
    requires FreshFrom(env, db, m)
    ensures FreshSwitch(db, env.Net(m.switch)) && FreshConnection(db, env.Net(m.connection))
    ensures FreshGw(db, env.Gw(m.gateway)) && FreshExt(db, env.Ext(m.gateway)) && FreshPhynet(db, env.Ext(m.phynet))
    ensures FreshRoutes(db, env.Gw(m.route), env.Net(m.route)) && FreshPorts(db, env.Net(m.port))
  {
  }

  lemma GatewayKeeps(env: Env, db: Db, m: Mark, router: Name, container: nat)
    requires Inv(env, db, m) && router in db.routers && router.Random?
    ensures var g, e := env.Gw(m.gateway), env.Ext(m.gateway);
            var d := WithGateway(db, router, g, e, container);
            && FreshGw(db, g) && FreshExt(db, e)
            && Inv(env, d, m.(gateway := m.gateway + 1)) && Grows(db, d) && Built(d, router, g, e, container)
  {
    hide Peered, AllWired, Shaped, FreshFrom, Grows, Built, FreshGw, FreshExt, Env.Gw, Env.Ext;
    GatewayShaped(env, db, m.port, router, m.gateway, container);
    var g, e := env.Gw(m.gateway), env.Ext(m.gateway);
    FreshAt(env, db, m);
    GatewayPeered(db, router, g, e, container);
    GatewayGrowsDb(db, router, g, e, container);
    GatewayFresh(env, db, m, router, container);
    var d := WithGateway(db, router, g, e, container);
    NoRouteAdded(env, db, d, m.route);
  }

  lemma PhynetKeeps(env: Env, db: Db, m: Mark)
    requires Inv(env, db, m)
    ensures var e := env.Ext(m.phynet);
            var d := WithPhynet(db, ExtSwitch(e), env.g.physnet);
            && FreshPhynet(db, e)
            && Inv(env, d, m.(phynet := m.phynet + 1)) && Grows(db, d) && HasPhynet(d, e, env.g.physnet)
  {
    hide Peered, AllWired, Shaped, Env.Net, Env.Gw, Env.Ext;
    Distinct(env, m.phynet);
    PhynetShaped(env, db, m.port, env.Ext(m.phynet));
    var e := env.Ext(m.phynet);
    assert FreshPhynet(db, e);
    OtherAdded(db.lsps, db.lrps, Provnet(ExtSwitch(e)), LocalnetPort(ExtSwitch(e), env.g.physnet));
    NoRouteAdded(env, db, WithPhynet(db, ExtSwitch(e), env.g.physnet), m.route);
  }

  lemma PortKeeps(env: Env, db: Db, m: Mark, switch: Name, ip: nat, security: bool)
    requires Inv(env, db, m) && ip == env.Net(m.port).ip + 1 && env.Net(m.port).Contains(ip)
    ensures var d := WithPort(db, switch, ip, security);
            Lp(ip) !in db.lsps && Inv(env, d, m.(port := m.port + 1)) && Grows(db, d)
  {
    hide Peered, AllWired, Shaped, FreshFrom, Grows, Env.Net, Env.Gw, Env.Ext;
    FreshAt(env, db, m);
    PortFresh(env, db, m, switch, ip, security);
    PortGrows(db, switch, ip, security);
    PortShaped(env, db, m.port, switch, security);
    OtherAdded(db.lsps, db.lrps, Lp(ip), VifPort(switch, ip, security));
    NoRouteAdded(env, db, WithPort(db, switch, ip, security), m.route);
  }

  lemma PortGrows(db: Db, switch: Name, ip: nat, security: bool)
    requires Lp(ip) !in db.lsps
    ensures Grows(db, WithPort(db, switch, ip, security))
  {
  }

  /** A port takes no name of another network's ports. */
  lemma PortFresh(env: Env, db: Db, m: Mark, switch: Name, ip: nat, security: bool)
    requires FreshFrom(env, db, m) && env.Net(m.port).Contains(ip)
    ensures FreshFrom(env, WithPort(db, switch, ip, security), m.(port := m.port + 1))
  {
    hide Env.Net, Env.Gw, Env.Ext, VifPort;
    Distinct(env, m.port);
  }

  // ---- waiting for ports

  lemma {:induction false} WaitLoop(db: Db, ports: seq<Name>, i: nat)
    requires i <= |ports|
    ensures ApplyAll(db, WaitCmds(ports)[i..]).Success? <==> forall k | i <= k < |ports| :: ports[k] in db.lsps
    ensures ApplyAll(db, WaitCmds(ports)[i..]).Success? ==> ApplyAll(db, WaitCmds(ports)[i..]) == Success(db)
    decreases |ports| - i
  {
    if i == |ports| {
    } else {
      WaitLoop(db, ports, i + 1);
      assert WaitCmds(ports)[i..][1..] == WaitCmds(ports)[i + 1..];
    }
  }

  /** Waiting changes nothing. With `wait_up` and another word than ping it is accepted exactly when every
      one of the ports is there and the word is one that ovn-nbctl takes as it is, in lower case. */
  lemma WaitsApplied(db: Db, bind: BindArgs, ports: seq<Name>)
    ensures ApplyAll(db, bind.Waits(ports)).Success?
            <==> !bind.waitUp || bind.waitSync == "ping"
                 || (bind.waitSync in ["none", "sb", "hv"] && forall p | p in ports :: p in db.lsps)
    ensures ApplyAll(db, bind.Waits(ports)).Success? ==> ApplyAll(db, bind.Waits(ports)) == Success(db)
  {
    hide WaitCmds, ApplyAll, Apply;
    WaitLoop(db, ports, 0);
    NoneApplied(db);
    var w := WaitCmds(ports);
    assert w[0..] == w && w + [] == w;
    SyncIff(db, bind.waitSync);
    ApplyConcat(db, w, [SyncCmd(bind.waitSync)]);
    Step(db, w, SyncCmd(bind.waitSync));
  }

  lemma NoneApplied(db: Db)
    ensures ApplyAll(db, []) == Success(db)
  {
  }

  lemma SyncIff(db: Db, word: string)
    ensures Apply(db, SyncCmd(word)) == if word in ["none", "sb", "hv"] then Success(db) else Failure(Rejected)
  {
  }

  /** A word that the check lets through and ovn-nbctl refuses. */
  lemma UpperCaseWait()
    ensures BindArgs(true, "HV").Known() && !BindArgs(true, "HV").Accepted()
  {
    assert Lower("HV") == "hv";
  }

  // ---- the routes of one gateway

  /** The external host of a subnet, on a chassis that maps the network name. */
  predicate HasHost(out: Outside, e: Cidr, container: nat, physnet: string) {
    && ExtHost(container, e.Gateway(2), e.Gateway(1)) in out.hosts
    && container in out.mappings && out.mappings[container] == physnet
  }

  lemma DefaultClosed(out: Outside, db: Db, router: Name, g: Cidr, e: Cidr, container: nat, physnet: string)
    requires Built(db, router, g, e, container) && HasPhynet(db, e, physnet) && HasHost(out, e, container, physnet)
    requires e.Iface(1).ip == e.Gateway(1) && e.Iface(1).Contains(e.Gateway(2))
    ensures RouteClosed(db, out, Route(GwRouter(g), DEFAULT_ROUTE, e.Gateway(2), false))
  {
    var h := ExtHost(container, e.Gateway(2), e.Gateway(1));
    assert Names(db, Erpg(e), Grpe(e));
    assert Bridged(db, out, Grpe(e), h);
    assert Via(db, out, Route(GwRouter(g), DEFAULT_ROUTE, e.Gateway(2), false), Grpe(e));
  }

  lemma JoinedClosed(out: Outside, db: Db, router: Name, g: Cidr, e: Cidr, container: nat, dst: Cidr, srcIp: bool)
    requires Built(db, router, g, e, container) && router.Random?
    requires g.Iface(1).ip == g.Gateway(1) && g.Iface(2).ip == g.Gateway(2)
    requires g.Iface(2).Contains(g.Gateway(1)) && g.Iface(1).Contains(g.Gateway(2))
    ensures RouteClosed(db, out, Route(GwRouter(g), dst, g.Gateway(1), srcIp))
    ensures RouteClosed(db, out, Route(router, dst, g.Gateway(2), srcIp))
  {
    assert Names(db, Jrp(g), Rpj(g)) && Names(db, Jrpg(g), Grpj(g));
    assert Adjacent(db, Rpj(g), Grpj(g)) && Adjacent(db, Grpj(g), Rpj(g));
    assert Via(db, out, Route(GwRouter(g), dst, g.Gateway(1), srcIp), Grpj(g));
    assert Via(db, out, Route(router, dst, g.Gateway(2), srcIp), Rpj(g));
  }

  /** The three next hops: the external host, the cluster router's port and the gateway router's port. */
  lemma RoutesClosed(env: Env, out: Outside, db: Db, k: nat, dp: Dp)
    requires env.g.startGw.Valid() && env.g.startExt.Valid() && env.g.startGw.len <= 30 && env.g.startExt.len <= 30
    requires WiredAt(env, db, k, dp) && HasHost(out, env.Ext(k), env.Box(k), env.g.physnet)
    ensures forall r | r in RoutesOf(dp, env.g.cluster) :: RouteClosed(db, out, r)
  {
    hide RouteClosed, Built, HasPhynet, HasHost, Cidr.At;
    GatewayInside(env.g.startGw, k);
    GatewayInside(env.g.startExt, k);
    DefaultClosed(out, db, dp.router, env.Gw(k), env.Ext(k), env.Box(k), env.g.physnet);
    JoinedClosed(out, db, dp.router, env.Gw(k), env.Ext(k), env.Box(k), env.g.cluster, false);
    JoinedClosed(out, db, dp.router, env.Gw(k), env.Ext(k), env.Box(k), dp.network.cidr, true);
  }

  lemma GatewayInside(c: Cidr, k: nat)
    requires c.Valid() && c.len <= 30
    ensures forall o | 1 <= o <= 2 ::
              c.At(k).Gateway(o) >= 0 && c.At(k).Contains(c.At(k).Gateway(o)) && c.At(k).Iface(o).ip == c.At(k).Gateway(o)
              && forall a: int :: c.At(k).Iface(o).Contains(a) == c.At(k).Contains(a)
  {
    GatewaysInsideIff(c);
  }

  lemma RoutesFresh(env: Env, db: Db, m: Mark, dp: Dp)
    requires FreshFrom(env, db, m) && dp.gwRouter == GwRouter(env.Gw(m.route)) && dp.router.Random?
    requires dp.network.cidr == env.Net(m.route)
    ensures FreshFrom(env, WithRoutes(db, dp, env.g.cluster), m.(route := m.route + 1))
  {
    assert forall k: nat :: env.Net(k).Network() == env.Net(k);
    hide Env.Net, Env.Gw, Env.Ext;
    Distinct(env, m.route);
    var d := WithRoutes(db, dp, env.g.cluster);
    forall k: nat | k >= m.route + 1
      ensures FreshRoutes(d, env.Gw(k), env.Net(k))
    {
      assert FreshRoutes(db, env.Gw(k), env.Net(k));
    }
  }

  lemma RoutesKeep(env: Env, db: Db, m: Mark, dp: Dp)
    requires Inv(env, db, m) && WiredAt(env, db, m.route, dp)
    ensures FreshRoutes(db, env.Gw(m.route), env.Net(m.route))
    ensures var d := WithRoutes(db, dp, env.g.cluster);
            Inv(env, d, m.(route := m.route + 1)) && Grows(db, d) && Served(d, dp, env.g.cluster)
  {
    hide Peered, FreshFrom, Built, HasPhynet, RoutesOf, AllWired, Shaped, Env.Gw, Env.Ext, Env.Net, Env.Owner;
    RoutesShaped(env, db, m.port, dp, env.g.cluster);
    FreshAt(env, db, m);
    RoutesFresh(env, db, m, dp);
    var d := WithRoutes(db, dp, env.g.cluster);
    WiredGrows(env, db, d, m.route, dp);
    RoutesStayWired(env, db, d, RoutesOf(dp, env.g.cluster), m.route, m.route + 1);
  }
}
