/** The two runs together: the topology with its management ports, then the ports with their groups. */
module WholeRuns {
  import opened Common
  import opened Cidrs
  import opened NorthDb
  import opened Builders
  import opened Topology
  import opened TopologyDb
  import T = TopologyRun
  import P = RoutedPorts
  import G = RoutedPortsDb
  import D = PortDecisions

  /** What the groups run is of: the switches that the topology run has built. */
  ghost predicate OnTop(cfg: RoutedConfig, n: nat, p: P.Config) {
    p.nets == Lswitches(cfg.start, T.First(cfg, n)) && G.Sized(p) && p.createAcls
  }

  /** The switches built are networks apart. */
  lemma BuiltApart(cfg: RoutedConfig, routers: seq<Name>, sandboxes: seq<Sandbox>, n: nat)
    requires cfg.start.Valid()
    requires forall t | 0 <= t < n :: RoutedFits(cfg, routers, sandboxes, T.First(cfg, t))
    ensures forall k: nat | k < T.First(cfg, n) :: cfg.start.At(k).Valid()
    ensures forall j: nat, k: nat | j < k :: Disjoint(cfg.start.At(j), cfg.start.At(k))
  {
    hide RoutedFits, Cidr.At, Cidr.Valid, Cidr.Next;
    forall k: nat | k < T.First(cfg, n)
      ensures cfg.start.At(k).Valid()
    {
      BuiltValid(cfg, routers, sandboxes, n, k);
    }
    forall j: nat, k: nat | j < k
      ensures Disjoint(cfg.start.At(j), cfg.start.At(k))
    {
      NextDisjoint(cfg.start, j, k);
    }
  }

  lemma {:induction false} BuiltValid(cfg: RoutedConfig, routers: seq<Name>, sandboxes: seq<Sandbox>, n: nat, k: nat)
    requires cfg.start.Valid() && k < T.First(cfg, n)
    requires forall t | 0 <= t < n :: RoutedFits(cfg, routers, sandboxes, T.First(cfg, t))
    ensures cfg.start.At(k).Valid()
    decreases n
  {
    hide RoutedFits, T.First, Cidr.At, Cidr.Valid, Cidr.Next;
    T.FirstStep(cfg, 0);
    if n == 0 {
    } else {
      var f := T.First(cfg, n - 1);
      T.FirstStep(cfg, n - 1);
      if k < f {
        BuiltValid(cfg, routers, sandboxes, n - 1, k);
      } else {
        assert RoutedFits(cfg, routers, sandboxes, f);
        FitNetworks(cfg, routers, sandboxes, f);
        LswitchesValid(cfg, routers, f);
        NetAt(cfg, f, k - f);
      }
    }
  }

  lemma FitNetworks(cfg: RoutedConfig, routers: seq<Name>, sandboxes: seq<Sandbox>, f: nat)
    requires RoutedFits(cfg, routers, sandboxes, f)
    ensures NetworksFit(cfg, routers, f)
  {
  }

  lemma NetAt(cfg: RoutedConfig, f: nat, i: nat)
    requires i < cfg.amount
    ensures Lswitches(cfg.start.At(f), cfg.amount)[i].cidr == cfg.start.At(f + i)
  {
    AtComposes(cfg.start, f, i);
  }

  lemma OnTopApart(cfg: RoutedConfig, n: nat, p: P.Config)
    requires OnTop(cfg, n, p)
    requires forall k: nat | k < T.First(cfg, n) :: cfg.start.At(k).Valid()
    requires forall j: nat, k: nat | j < k :: Disjoint(cfg.start.At(j), cfg.start.At(k))
    ensures P.DisjointNets(p)
  {
    hide T.First, Cidr.At, Cidr.Valid;
  }

  /** The groups run can start on what the topology run leaves exactly when no window of it takes the
      management address of its switch. */
  lemma ReadyIff(env: Env, d: Db, n: nat, p: P.Config, runs: nat)
    requires T.Left(env, d, n) && env.cfg.mgmtPort && OnTop(env.cfg, n, p) && P.DisjointNets(p)
    requires forall u | 0 <= u < runs :: P.Fits(p, u)
    ensures G.RunInv(p, d, 0, runs)
            <==> forall u: nat | u < runs :: !P.Takes(p, u, P.ManagementIp(P.SwitchOf(p, u)))
  {
    hide Shaped, T.AllGateways, AllWired, P.WindowIp, T.First, P.DisjointNets, P.Fits;
    NothingGrouped(env, d, n, p);
    forall u: nat | u < runs
      ensures G.Absent(p, d, u) <==> !P.Takes(p, u, P.ManagementIp(P.SwitchOf(p, u)))
    {
      assert P.Fits(p, u);
      AbsentIff(env, d, n, p, u);
    }
    if G.RunInv(p, d, 0, runs) {
      assert forall u: nat | u < runs :: G.Absent(p, d, u);
    }
  }

  lemma NothingGrouped(env: Env, d: Db, n: nat, p: P.Config)
    requires T.Left(env, d, n) && OnTop(env.cfg, n, p)
    ensures G.Ruled(d) && G.Grouped(p, d.groups, d.addressSets, p.batch * 0)
    ensures forall j | 0 <= j < |p.nets| :: p.nets[j].name in d.switches
  {
    hide LrpShaped, LspShaped, Managed, T.AllGateways, AllWired, Peered, T.First, Cidr.At;
    forall j: nat | j < |p.nets|
      ensures p.nets[j].name in d.switches
    {
      assert p.nets[j].name == LSwitch(env.Net(j)) && T.SwitchThere(env, d, j);
    }
  }

  /** The management ports there are ... */
  lemma ManagedThere(env: Env, d: Db, n: nat, p: P.Config, j: nat)
    requires T.Left(env, d, n) && env.cfg.mgmtPort && OnTop(env.cfg, n, p) && j < |p.nets|
    ensures Lp(P.ManagementIp(p.nets[j])) in d.lsps
  {
    hide Shaped, T.AllGateways, AllWired, Peered, T.First, Cidr.At;
    assert p.nets[j].cidr == env.Net(j);
    assert T.PortThere(env, d, j);
  }

  /** ... are all the ports with an address. */
  lemma OnlyManaged(env: Env, d: Db, n: nat, p: P.Config, ip: nat) returns (k: nat)
    requires T.Left(env, d, n) && OnTop(env.cfg, n, p) && Lp(ip) in d.lsps
    ensures k < |p.nets| && ip == P.ManagementIp(p.nets[k])
  {
    hide LrpShaped, LspShaped, T.AllGateways, AllWired, Peered, T.First, Cidr.At, T.NetsThere;
    assert Managed(env, Lp(ip), T.First(env.cfg, n));
    k :| k < T.First(env.cfg, n) && Lp(ip) == Lp(env.Net(k).ip + 1);
    assert p.nets[k].cidr == env.Net(k);
  }

  /** The networks are of one size, and one that a window fits has a second address. */
  lemma ManagementInside(cfg: RoutedConfig, n: nat, p: P.Config, u: nat, k: nat)
    requires OnTop(cfg, n, p) && P.Fits(p, u) && k < |p.nets|
    ensures p.nets[k].cidr.Contains(P.ManagementIp(p.nets[k]))
  {
    var j := u % |p.nets|;
    SizeAt(cfg.start, j);
    SizeAt(cfg.start, k);
    hide T.First, Cidr.Size, P.Shift;
    assert p.nets[j].cidr == cfg.start.At(j) && p.nets[k].cidr == cfg.start.At(k);
  }

  lemma WindowInside(p: P.Config, u: nat, ip: nat)
    requires |p.nets| > 0 && P.DisjointNets(p) && P.Fits(p, u) && P.Takes(p, u, ip)
    ensures P.SwitchOf(p, u).cidr.Contains(ip)
  {
    hide P.Shift;
    assert P.SwitchOf(p, u).cidr.Valid();
  }

  lemma AbsentIff(env: Env, d: Db, n: nat, p: P.Config, u: nat)
    requires T.Left(env, d, n) && env.cfg.mgmtPort && OnTop(env.cfg, n, p) && P.DisjointNets(p) && P.Fits(p, u)
    ensures G.Absent(p, d, u) <==> !P.Takes(p, u, P.ManagementIp(P.SwitchOf(p, u)))
  {
    hide T.Left, P.DisjointNets, P.WindowIp, P.Fits, P.ManagementIp, Lswitches, Cidr.Contains;
    var j := u % |p.nets|;
    ManagedThere(env, d, n, p, j);
    if !P.Takes(p, u, P.ManagementIp(P.SwitchOf(p, u))) {
      forall ip: nat | P.Takes(p, u, ip)
        ensures Lp(ip) !in d.lsps
      {
        if Lp(ip) in d.lsps {
          var k := OnlyManaged(env, d, n, p, ip);
          WindowInside(p, u, ip);
          ManagementInside(env.cfg, n, p, u, k);
          SameNet(p, j, k, ip);
        }
      }
    }
  }

  /** An address in two networks of the run means one network. */
  lemma SameNet(p: P.Config, j: nat, k: nat, ip: nat)
    requires P.DisjointNets(p) && j < |p.nets| && k < |p.nets|
    requires p.nets[j].cidr.Contains(ip) && p.nets[k].cidr.Contains(ip)
    ensures j == k
  {
  }

  // ---- both runs

  lemma {:induction false} WindowRefused(p: P.Config, d: Db, t: nat, i: nat, j: nat)
    requires |p.nets| > 0 && i <= j < p.batch && P.SwitchOf(p, t).name in d.switches && Lp(P.WindowIp(p, t) + j) in d.lsps
    ensures ApplyAll(d, Flatten(P.WindowItems(p, t)[i..])).Failure?
    decreases j - i
  {
    hide ApplyAll, P.WindowIp;
    var items, ip, sw := P.WindowItems(p, t), P.WindowIp(p, t) + i, P.SwitchOf(p, t).name;
    assert items[i..][0] == items[i] == PortCmds(sw, ip, p.security);
    assert items[i..][1..] == items[i + 1..];
    ApplyConcat(d, items[i], Flatten(items[i + 1..]));
    if Lp(ip) in d.lsps {
      PortRefused(d, sw, ip, p.security);
    } else {
      PortApplied(d, sw, ip, p.security);
      WindowRefused(p, WithPort(d, sw, ip, p.security), t, i + 1, j);
    }
  }

  lemma PortRefused(d: Db, switch: Name, ip: nat, security: bool)
    requires Lp(ip) in d.lsps
    ensures ApplyAll(d, PortCmds(switch, ip, security)).Failure?
  {
    assert PortCmds(switch, ip, security)[0] == LspAdd(switch, Lp(ip));
  }

  lemma {:induction false} StillRefused(p: P.Config, d: Db, t: nat, n: nat)
    requires G.Sized(p) && t <= n && ApplyAll(d, P.RunCmds(p, t)).Failure?
    ensures ApplyAll(d, P.RunCmds(p, n)).Failure?
    decreases n
  {
    hide ApplyAll, P.IterationCmds;
    if t == n {
    } else {
      StillRefused(p, d, t, n - 1);
      ApplyConcat(d, P.RunCmds(p, n - 1), P.IterationCmds(p, n - 1));
    }
  }

  /** A run that takes a management address is refused there. */
  lemma TakenRefused(env: Env, d: Db, n: nat, p: P.Config, runs: nat, t: nat)
    requires T.Left(env, d, n) && env.cfg.mgmtPort && OnTop(env.cfg, n, p) && P.DisjointNets(p)
    requires t < runs && forall u | 0 <= u < runs :: P.Fits(p, u)
    requires P.Takes(p, t, P.ManagementIp(P.SwitchOf(p, t)))
    requires forall u: nat | u < t :: !P.Takes(p, u, P.ManagementIp(P.SwitchOf(p, u)))
    ensures ApplyAll(d, P.RunCmds(p, runs)).Failure?
  {
    hide T.Left, P.DisjointNets, P.WindowIp, P.Fits, P.ManagementIp, Lswitches, ApplyAll, P.IterationCmds, G.Absent, G.Grouped,
         G.Ruled, BindArgs.Accepted, G.Created;
    ReadyIff(env, d, n, p, t);
    var before := G.GroupingRun(p, d, t, t);
    ApplyConcat(d, P.RunCmds(p, t), P.IterationCmds(p, t));
    if ApplyAll(d, P.RunCmds(p, t)).Success? {
      ManagedThere(env, d, n, p, t % |p.nets|);
      IterationRefused(p, before, t);
    }
    StillRefused(p, d, t + 1, runs);
  }

  lemma IterationRefused(p: P.Config, d: Db, t: nat)
    requires G.Sized(p) && P.SwitchOf(p, t).name in d.switches
    requires P.Takes(p, t, P.ManagementIp(P.SwitchOf(p, t))) && Lp(P.ManagementIp(P.SwitchOf(p, t))) in d.lsps
    ensures ApplyAll(d, P.IterationCmds(p, t)).Failure?
  {
    hide ApplyAll, P.WindowIp, P.ManagementIp, P.WindowItems, P.GroupPart, P.WaitPart;
    WindowRefused(p, d, t, 0, P.ManagementIp(P.SwitchOf(p, t)) - P.WindowIp(p, t));
    var w := P.WindowItems(p, t);
    assert w[0..] == w;
    ApplyConcat(d, Flatten(w), P.GroupPart(p, t) + P.WaitPart(p, t));
  }

  /** The groups run, on what the topology run leaves: accepted exactly when it misses the management ports
      and waits in words that ovn-nbctl knows, and then it adds nothing but ports and groups. */
  lemma PortsOnTopology(env: Env, d: Db, n: nat, p: P.Config, runs: nat) returns (e: Db)
    requires T.Left(env, d, n) && env.cfg.mgmtPort && OnTop(env.cfg, n, p) && P.DisjointNets(p)
    requires runs > 0 && forall u | 0 <= u < runs :: P.Fits(p, u)
    ensures ApplyAll(d, P.RunCmds(p, runs)).Success? <==> P.Misses(p, runs) && p.bind.Accepted()
    ensures P.Misses(p, runs) && p.bind.Accepted() ==>
              ApplyAll(d, P.RunCmds(p, runs)) == Success(e) && G.RunInv(p, e, runs, runs) && G.Beside(d, e)
  {
    hide T.Left, P.DisjointNets, P.Takes, P.Fits, P.ManagementIp, Lswitches, ApplyAll, P.RunCmds, G.RunInv, G.Beside,
         P.Misses, BindArgs.Accepted;
    P.MissedInRunIff(p, runs);
    ReadyIff(env, d, n, p, runs);
    if P.Misses(p, runs) {
      e := G.GroupingRun(p, d, runs, runs);
    } else {
      e := d;
      var t := FirstTaken(p, runs);
      TakenRefused(env, d, n, p, runs, t);
    }
  }

  lemma {:induction false} FirstTaken(p: P.Config, runs: nat) returns (t: nat)
    requires |p.nets| > 0
    requires exists u: nat :: u < runs && P.Takes(p, u, P.ManagementIp(P.SwitchOf(p, u)))
    ensures t < runs && P.Takes(p, t, P.ManagementIp(P.SwitchOf(p, t)))
    ensures forall u: nat | u < t :: !P.Takes(p, u, P.ManagementIp(P.SwitchOf(p, u)))
    decreases runs
  {
    hide P.Takes, P.ManagementIp, P.SwitchOf;
    if u: nat :| u < runs - 1 && P.Takes(p, u, P.ManagementIp(P.SwitchOf(p, u))) {
      t := FirstTaken(p, runs - 1);
    } else {
      t := runs - 1;
    }
  }

  lemma BesideGrows(a: Db, b: Db)
    requires G.Beside(a, b)
    ensures Grows(a, b)
  {
    hide G.OwnRules;
  }

  lemma NetworkStaysInPlace(cfg: RoutedConfig, routers: seq<Name>, a: Db, b: Db, t: nat, m: nat)
    requires Grows(a, b) && T.NetworkInPlace(cfg, routers, a, t, m)
    ensures T.NetworkInPlace(cfg, routers, b, t, m)
  {
    hide RouterOf, Cidr.At, T.First;
  }

  lemma GatewayStaysInPlace(g: GatewayConfig, a: Db, b: Db, net: Cidr, join: Cidr, ext: Cidr, owner: Name, container: nat)
    requires Grows(a, b) && T.GatewayInPlace(g, a, net, join, ext, owner, container)
    ensures T.GatewayInPlace(g, b, net, join, ext, owner, container)
  {
    hide Cidr.Last;
    SwitchesStayInPlace(a, b, join, ext, g.physnet);
    hide T.SwitchesInPlace;
  }

  lemma SwitchesStayInPlace(a: Db, b: Db, join: Cidr, ext: Cidr, physnet: string)
    requires Grows(a, b) && T.SwitchesInPlace(a, join, ext, physnet)
    ensures T.SwitchesInPlace(b, join, ext, physnet)
  {
    var p :| p in a.lsps && a.lsps[p].switch == ExtSwitch(ext) && a.lsps[p].kind.Localnet?
             && a.lsps[p].physnet == Some(physnet) && a.lsps[p].address.Unknown?;
    assert p in b.lsps;
    var q, u :| Names(a, q, Rpj(join)) && Names(a, u, Grpj(join)) && a.lsps[q].switch == a.lsps[u].switch == JoinSwitch(join);
    assert Names(b, q, Rpj(join)) && Names(b, u, Grpj(join));
    var o :| Names(a, o, Grpe(ext)) && a.lsps[o].switch == ExtSwitch(ext);
    assert Names(b, o, Grpe(ext));
  }

  lemma StayInPlace(cfg: RoutedConfig, routers: seq<Name>, sandboxes: seq<Sandbox>, a: Db, b: Db, n: nat)
    requires G.Beside(a, b) && T.AllInPlace(cfg, routers, sandboxes, a, n)
    ensures T.AllInPlace(cfg, routers, sandboxes, b, n)
  {
    BesideGrows(a, b);
    hide Grows, T.NetworkInPlace, T.GatewayInPlace, RouterOf, Cidr.At, T.First, G.Beside;
    forall t: nat, m: nat | t < n && m < cfg.amount
      ensures T.InPlace(cfg, routers, sandboxes, b, t, m)
    {
      assert T.InPlace(cfg, routers, sandboxes, a, t, m);
      NetworkStaysInPlace(cfg, routers, a, b, t, m);
      var k, owner := T.First(cfg, t) + m, RouterOf(cfg, routers, m);
      if cfg.gateways.Some? && owner.Some? && sandboxes != [] {
        var g := cfg.gateways.value;
        GatewayStaysInPlace(g, a, b, cfg.start.At(k), g.startGw.At(k), g.startExt.At(k), owner.value,
                            sandboxes[k % |sandboxes|].container);
      }
    }
  }

  /** What all the rules of the database decide for the ports of a run. */
  ghost predicate Decided(p: P.Config, db: Db, ports: nat)
    requires G.Sized(p)
  {
    forall k: nat, direction, packet | k < ports ::
      Decides(db, db.acls, Lp(P.PortIp(p, k)), direction, packet, D.Verdict(db, NetworkPolicy(k / p.policySize), direction, packet))
  }

  lemma RunDecides(p: P.Config, a: Db, b: Db, runs: nat)
    requires G.Sized(p) && P.DisjointNets(p) && G.RunInv(p, b, runs, runs) && G.Beside(a, b) && a.acls == {}
    requires forall u | 0 <= u < runs :: P.Fits(p, u)
    ensures Decided(p, b, p.batch * runs)
  {
    OnlyRunRules(a, b);
    hide G.RunInv, P.DisjointNets, P.Fits, P.PortIp, Decides, D.Verdict, G.Beside;
    forall k: nat, direction, packet | k < p.batch * runs
      ensures Decides(b, b.acls, Lp(P.PortIp(p, k)), direction, packet, D.Verdict(b, NetworkPolicy(k / p.policySize), direction, packet))
    {
      D.PortDecides(p, b, runs, k, direction, packet);
    }
  }

  lemma OnlyRunRules(a: Db, b: Db)
    requires G.Beside(a, b) && a.acls == {}
    ensures D.RunRules(b) == b.acls
  {
  }

  /** The gateway that a port of the groups run is told is the address of the router port on its switch. */
  lemma PortGateway(cfg: RoutedConfig, routers: seq<Name>, sandboxes: seq<Sandbox>, d: Db, n: nat, p: P.Config, runs: nat,
                    t: nat, m: nat, u: nat, i: nat)
    requires cfg.start.Valid() && OnTop(cfg, n, p) && t < n && m < cfg.amount && u < runs && i < p.batch
    requires T.InPlace(cfg, routers, sandboxes, d, t, m) && G.RunInv(p, d, runs, runs)
    requires RoutedFits(cfg, routers, sandboxes, T.First(cfg, t))
    requires u % |p.nets| == T.First(cfg, t) + m && RouterOf(cfg, routers, m).Some?
    ensures var lport := Ports(P.SwitchOf(p, u), P.Shift(p, u), p.batch, None)[i];
            && lport.name in d.lsps && d.lsps[lport.name].switch in d.lrps
            && d.lrps[d.lsps[lport.name].switch].net.ip == lport.gw
  {
    G.PortStands(p, d, runs, u, i);
    hide G.RunInv, T.GatewayInPlace, GatewaysFit, LportsFit, Assigned, Configured, P.Shift;
    OwnerAt(cfg, routers, m);
    AtComposes(cfg.start, T.First(cfg, t), m);
    assert Lswitches(cfg.start.At(T.First(cfg, t)), cfg.amount)[m].cidr.Gateway(1) >= 0;
  }

  /** Groups and ports beside a topology leave its peers and its routes as they are. */
  lemma BesideKeeps(a: Db, b: Db, out: Outside)
    requires G.Beside(a, b) && Peered(a.lsps, a.lrps)
    ensures PeerIntegrity(b) && (AllClosed(out, a) ==> AllClosed(out, b))
  {
    hide G.OwnRules;
    assert Peered(b.lsps, b.lrps);
    PeeredIsIntegrity(b);
    hide Peered, PeerIntegrity, RouteClosed;
    BesideGrows(a, b);
    if AllClosed(out, a) {
      forall r | r in b.routes
        ensures RouteClosed(b, out, r)
      {
        ClosedGrows(a, b, out, r);
      }
    }
  }

  /** The database of both runs: every port paired, every network and gateway in place, every group with its
      range, every packet decided, and every route closed if the configuration allows it. */
  ghost predicate InOrder(cfg: RoutedConfig, routers: seq<Name>, sandboxes: seq<Sandbox>, mapped: string, n: nat,
                          p: P.Config, runs: nat, db: Db)
    requires G.Sized(p)
  {
    && PeerIntegrity(db) && T.AllInPlace(cfg, routers, sandboxes, db, n)
    && G.RunInv(p, db, runs, runs) && Decided(p, db, p.batch * runs)
    && (T.Reachable(cfg, sandboxes, mapped) ==>
          AllClosed(T.OutsideOf(sandboxes, cfg.gateways.value.startExt, mapped, T.First(cfg, n)), db))
  }

  lemma BothInOrder(cfg: RoutedConfig, routers: seq<Name>, sandboxes: seq<Sandbox>, mapped: string, n: nat,
                    p: P.Config, runs: nat, d: Db, e: Db)
    requires G.Sized(p) && P.DisjointNets(p) && forall u | 0 <= u < runs :: P.Fits(p, u)
    requires T.Left(T.EnvOf(cfg, routers, sandboxes), d, n) && T.AllInPlace(cfg, routers, sandboxes, d, n)
    requires T.Reachable(cfg, sandboxes, mapped) ==>
               AllClosed(T.OutsideOf(sandboxes, cfg.gateways.value.startExt, mapped, T.First(cfg, n)), d)
    requires G.Beside(d, e) && G.RunInv(p, e, runs, runs)
    ensures InOrder(cfg, routers, sandboxes, mapped, n, p, runs, e)
  {
    LeftMeans(T.EnvOf(cfg, routers, sandboxes), d, n);
    hide P.Fits, AllClosed, T.OutsideOf, T.AllInPlace, PeerIntegrity, T.First, G.RunInv, T.Left, P.DisjointNets, G.Beside,
         Peered, T.Reachable, Decided;
    StayInPlace(cfg, routers, sandboxes, d, e, n);
    RunDecides(p, d, e, runs);
    if T.Reachable(cfg, sandboxes, mapped) {
      HasGatewayConfig(cfg, sandboxes, mapped);
      BesideKeeps(d, e, T.OutsideOf(sandboxes, cfg.gateways.value.startExt, mapped, T.First(cfg, n)));
    } else {
      BesideKeeps(d, e, Outside({}, map[]));
    }
  }

  lemma HasGatewayConfig(cfg: RoutedConfig, sandboxes: seq<Sandbox>, mapped: string)
    requires T.Reachable(cfg, sandboxes, mapped)
    ensures cfg.gateways.Some?
  {
  }

  lemma LeftMeans(env: Env, d: Db, n: nat)
    requires T.Left(env, d, n)
    ensures d.acls == {} && Peered(d.lsps, d.lrps)
  {
  }

  /** The workload as a whole: the topology of n iterations with management ports, then `runs` iterations of
      grouped ports on its switches. All of it is accepted exactly when both runs wait in words that
      ovn-nbctl knows, no gateway is made for a default-route cluster, and the windows miss the management
      ports; and then peers, networks, gateways, routes and groups are all in order in the one database, and
      what its rules decide for every packet of every port is known. */
  lemma WholeRun(cfg: RoutedConfig, routers: seq<Name>, sandboxes: seq<Sandbox>, mapped: string, n: nat, p: P.Config, runs: nat)
    requires T.RandomNames(routers) && |sandboxes| > 0 && cfg.start.Valid() && cfg.mgmtPort && OnTop(cfg, n, p) && runs > 0
    requires forall t | 0 <= t < n :: RoutedFits(cfg, routers, sandboxes, T.First(cfg, t))
    requires forall u | 0 <= u < runs :: P.Fits(p, u)
    ensures var r := ApplyAll(T.Start(routers), T.RunCmds(cfg, routers, sandboxes, n) + P.RunCmds(p, runs));
            && (r.Success? <==> T.Accepted(cfg, routers) && P.Misses(p, runs) && p.bind.Accepted())
            && (r.Success? ==> InOrder(cfg, routers, sandboxes, mapped, n, p, runs, r.value))
  {
    Iterated(cfg, n, p);
    hide ApplyAll, T.RunCmds, P.RunCmds, RoutedFits, P.Fits, AllClosed, T.OutsideOf, T.AllInPlace, PeerIntegrity, T.Start, T.First,
         G.RunInv, T.Accepted, P.Misses, BindArgs.Accepted, P.DisjointNets, Cidr.Valid, Cidr.At, OnTop, G.Beside, T.Reachable,
         T.RandomNames, T.Left, InOrder;
    var env := T.EnvOf(cfg, routers, sandboxes);
    var first, second := T.RunCmds(cfg, routers, sandboxes, n), P.RunCmds(p, runs);
    BuiltApart(cfg, routers, sandboxes, n);
    OnTopApart(cfg, n, p);
    T.PeersInEveryRun(cfg, routers, sandboxes, n);
    ApplyConcat(T.Start(routers), first, second);
    if T.Accepted(cfg, routers) {
      var d := ApplyAll(T.Start(routers), first).value;
      var e := PortsOnTopology(env, d, n, p, runs);
      if P.Misses(p, runs) && p.bind.Accepted() {
        if T.Reachable(cfg, sandboxes, mapped) {
          T.RoutingClosure(cfg, routers, sandboxes, mapped, n);
        }
        BothInOrder(cfg, routers, sandboxes, mapped, n, p, runs, d, e);
      }
    }
  }

  /** There are switches only after an iteration. */
  lemma Iterated(cfg: RoutedConfig, n: nat, p: P.Config)
    requires OnTop(cfg, n, p)
    ensures n > 0 && cfg.amount > 0 && G.Sized(p)
  {
  }
}
