/** The routed topology: networks on cluster routers, one gateway router per network. */
module Topology {
  import opened Common
  import opened Cidrs
  import opened NorthDb
  import opened NbCtls
  import opened Builders

  const DEFAULT_ROUTE := Cidr(0, 0, 0)

  datatype Sandbox = Sandbox(farm: nat, container: nat)

  /** What _connect_gateway_router returns. */
  datatype Dp = Dp(network: Lswitch, router: Name, join: Name, gwRouter: Name, ext: Name,
                   defGw: int, gw: int, rpGw: int)

  function ConnectCmds(router: Name, sw: Lswitch): seq<Cmd> {
    [LrpAdd(router, sw.name, sw.cidr.Iface(1)), LspAdd(sw.name, Rp(sw.name)), SetRouterPeer(Rp(sw.name), sw.name)]
  }

  function JoinCmds(router: Name, gw: Cidr): seq<Cmd> {
    [LsAdd(JoinSwitch(gw)), LrpAdd(router, Rpj(gw), gw.Iface(1)),
     LspAdd(JoinSwitch(gw), Jrp(gw)), SetRouterPeer(Jrp(gw), Rpj(gw))]
  }

  function GwRouterCmds(gw: Cidr, container: nat): seq<Cmd> {
    [LrAdd(GwRouter(gw)), SetChassis(GwRouter(gw), container), LrpAdd(GwRouter(gw), Grpj(gw), gw.Iface(2)),
     LspAdd(JoinSwitch(gw), Jrpg(gw)), SetRouterPeer(Jrpg(gw), Grpj(gw))]
  }

  function ExternalCmds(gw: Cidr, ext: Cidr): seq<Cmd> {
    [LsAdd(ExtSwitch(ext)), LrpAdd(GwRouter(gw), Grpe(ext), ext.Iface(1)),
     LspAdd(ExtSwitch(ext), Erpg(ext)), SetRouterPeer(Erpg(ext), Grpe(ext))]
  }

  function GatewayCmds(router: Name, gw: Cidr, ext: Cidr, container: nat): seq<Cmd> {
    JoinCmds(router, gw) + GwRouterCmds(gw, container) + ExternalCmds(gw, ext)
  }

  function DpOf(sw: Lswitch, router: Name, gw: Cidr, ext: Cidr): Dp {
    Dp(sw, router, JoinSwitch(gw), GwRouter(gw), ExtSwitch(ext), ext.Gateway(2), gw.Gateway(2), gw.Gateway(1))
  }

  function RouteCmds(dp: Dp, cluster: Cidr): seq<Cmd> {
    [SetForceSnat(dp.gwRouter, dp.gw), RouteAdd(Route(dp.gwRouter, DEFAULT_ROUTE, dp.defGw, false)),
     RouteAdd(Route(dp.gwRouter, cluster, dp.rpGw, false)), RouteAdd(Route(dp.router, dp.network.cidr, dp.gw, true)),
     NatAdd(dp.gwRouter, dp.gw, cluster)]
  }

  // ---- network m of a call: which router, which subnets, which sandbox

  function Repeat(n: nat, router: Name): seq<Name> {
    seq(n, _ => router)
  }

  /** The router of each network, slicing npr networks off for one router after the other. */
  function Assigned(networks: nat, routers: seq<Name>, npr: nat): seq<Name>
    decreases |routers|
  {
    if routers == [] then []
    else Repeat(Min(npr, networks), routers[0]) + Assigned(networks - Min(npr, networks), routers[1..], npr)
  }

  /** Of the networks, npr per router find one; what is left when the routers run out is unrouted. */
  lemma {:induction false} AssignedLength(networks: nat, routers: seq<Name>, npr: nat)
    ensures |Assigned(networks, routers, npr)| == Min(networks, |routers| * npr)
    decreases |routers|
  {
    if routers == [] {
    } else {
      AssignedLength(networks - Min(npr, networks), routers[1..], npr);
      LengthStep(networks, |routers[1..]|, npr);
    }
  }

  /** Network m goes to router m / npr, and to no other. */
  lemma {:induction false} AssignedAt(networks: nat, routers: seq<Name>, npr: nat, m: nat)
    requires npr > 0 && m < |Assigned(networks, routers, npr)|
    ensures m / npr < |routers| && Assigned(networks, routers, npr)[m] == routers[m / npr]
    decreases |routers|
  {
    var n, tail := Min(npr, networks), routers[1..];
    var rest := Assigned(networks - n, tail, npr);
    if m < n {
      DivModUnique(m, npr, 0, m);
    } else {
      AssignedFits(networks - n, tail, npr);
      AssignedAt(networks - n, tail, npr, m - npr);
      DivBack(m, npr);
      var q := (m - npr) / npr;
      assert Assigned(networks, routers, npr)[m] == rest[m - npr] == tail[q] == routers[q + 1];
    }
  }

  lemma LengthStep(networks: nat, routers: nat, npr: nat)
    ensures Min(networks, (routers + 1) * npr)
            == Min(npr, networks) + Min(networks - Min(npr, networks), routers * npr)
  {
    MulSucc(npr, routers);
  }

  lemma AssignedFits(networks: nat, routers: seq<Name>, npr: nat)
    ensures |Assigned(networks, routers, npr)| <= networks
    decreases |routers|
  {
  }

  function ConnectItems(nets: seq<Lswitch>, owners: seq<Name>): seq<seq<Cmd>>
    requires |owners| <= |nets|
  {
    seq(|owners|, m requires 0 <= m < |owners| => ConnectCmds(owners[m], nets[m]))
  }

  /** 0 stands in where there is no sandbox; no gateway is ever made there. */
  function ContainerAt(sandboxes: seq<Sandbox>, m: nat): nat {
    if m < |sandboxes| then sandboxes[m].container else 0
  }

  /** Network m is wired through join subnet m, external subnet m and sandbox m, whatever its router. */
  function GatewayItems(owners: seq<Name>, sandboxes: seq<Sandbox>, gw: Cidr, ext: Cidr): seq<seq<Cmd>> {
    seq(|owners|, m requires 0 <= m < |owners| =>
          GatewayCmds(owners[m], gw.At(m), ext.At(m), ContainerAt(sandboxes, m)))
  }

  function Dps(nets: seq<Lswitch>, owners: seq<Name>, gw: Cidr, ext: Cidr): seq<Dp>
    requires |owners| <= |nets|
  {
    seq(|owners|, m requires 0 <= m < |owners| => DpOf(nets[m], owners[m], gw.At(m), ext.At(m)))
  }

  function RouteItems(dps: seq<Dp>, cluster: Cidr): seq<seq<Cmd>> {
    seq(|dps|, m requires 0 <= m < |dps| => RouteCmds(dps[m], cluster))
  }

  function ExtSwitches(dps: seq<Dp>): seq<Name> {
    seq(|dps|, m requires 0 <= m < |dps| => dps[m].ext)
  }

  // ---- the operations

  method ConnectNetworkToRouter(s: Scenario, router: Name, sw: Lswitch) returns (r: Result<()>)
    requires s.Quiet()
    modifies s, s.nbctl
    ensures r.Success? <==> sw.cidr.Gateway(1) >= 0
    ensures r.Success? ==> s.Sends(ConnectCmds(router, sw))
    ensures r.Failure? ==> s.Sends([])
  {
    var c := s.Begin(false);
    if sw.cidr.Gateway(1) < 0 {
      return Failure(BadAddress);
    }
    c.IssueAll(ConnectCmds(router, sw));
    s.End(c);
    return Success(());
  }

  method ConnectGatewayRouter(s: Scenario, router: Name, sw: Lswitch, gw: Cidr, ext: Cidr, container: nat, batch: bool)
    returns (r: Result<Dp>)
    requires s.Quiet()
    modifies s, s.nbctl
    ensures r.Success? <==> gw.Gateway(2) >= 0 && ext.Gateway(2) >= 0
    ensures r.Success? ==> r.value == DpOf(sw, router, gw, ext) && s.Sends(GatewayCmds(router, gw, ext, container))
    ensures s.SameClient()
  {
    hide JoinCmds, GwRouterCmds, ExternalCmds, NbCtl.Issued, NbCtl.Ready, Delivered, Cidr.Size;
    var c := s.Begin(batch);
    if gw.Gateway(1) < 0 {
      return Failure(BadAddress);
    }
    c.IssueAll(JoinCmds(router, gw));
    if gw.Gateway(2) < 0 {
      return Failure(BadAddress);
    }
    c.IssueAll(GwRouterCmds(gw, container));
    if ext.Gateway(2) < 0 {
      return Failure(BadAddress);
    }
    c.IssueAll(ExternalCmds(gw, ext));
    s.End(c);
    return Success(DpOf(sw, router, gw, ext));
  }

  lemma ItemsUpTo(items: seq<seq<Cmd>>, m: nat)
    requires m < |items|
    ensures Flatten(items[..m + 1]) == Flatten(items[..m]) + items[m]
  {
    assert items[..m + 1] == items[..m] + [items[m]];
    FlattenSnoc(items[..m], items[m]);
  }

  lemma ItemsRange(items: seq<seq<Cmd>>, m: nat, n: nat)
    requires m <= n <= |items|
    ensures Flatten(items[..n]) == Flatten(items[..m]) + Flatten(items[m..n])
  {
    assert items[..n] == items[..m] + items[m..n];
    FlattenConcat(items[..m], items[m..n]);
  }

  lemma NoItems(nets: seq<Lswitch>, owners: seq<Name>)
    requires |owners| <= |nets|
    ensures |ConnectItems(nets, owners)| == |owners| && Flatten(ConnectItems(nets, owners)[..0]) == []
  {
  }

  method ConnectSlice(s: Scenario, router: Name, nets: seq<Lswitch>) returns (r: Result<()>)
    requires s.Quiet()
    modifies s, s.nbctl
    ensures s.SameClient()
    ensures r.Success? <==> forall k | 0 <= k < |nets| :: nets[k].cidr.Gateway(1) >= 0
    ensures r.Success? ==> s.Sends(Flatten(ConnectItems(nets, Repeat(|nets|, router))))
  {
    hide Scenario.Invokes, Scenario.Wire, Delivered;
    ghost var items := ConnectItems(nets, Repeat(|nets|, router));
    for i := 0 to |nets|
      invariant s.Quiet() && s.SameClient()
      invariant Delivered(s.Wire()) == old(Delivered(s.Wire())) + Flatten(items[..i])
      invariant forall k | 0 <= k < i :: nets[k].cidr.Gateway(1) >= 0
    {
      ItemsUpTo(items, i);
      var _ :- ConnectNetworkToRouter(s, router, nets[i]);
    }
    assert items[..|nets|] == items;
    return Success(());
  }

  /** The slice of networks one router gets, as a range of all items. */
  lemma SliceOfItems(nets: seq<Lswitch>, owners: seq<Name>, m: nat, count: nat, router: Name)
    requires |owners| <= |nets| && m + count <= |owners|
    requires owners[m..m + count] == Repeat(count, router)
    ensures Flatten(ConnectItems(nets, owners)[..m + count])
            == Flatten(ConnectItems(nets, owners)[..m])
               + Flatten(ConnectItems(nets[m..][..count], Repeat(count, router)))
  {
    var items := ConnectItems(nets, owners);
    assert ConnectItems(nets[m..][..count], Repeat(count, router)) == items[m..m + count] by {
      assert forall i | m <= i < m + count :: owners[i] == owners[m..m + count][i - m];
    }
    ItemsRange(items, m, m + count);
  }

  /** The loops of this module walk the owners: those from m on are what slicing still gives. */
  ghost predicate SlicesLeft(owners: seq<Name>, m: nat, networks: nat, routers: seq<Name>, npr: nat, j: nat) {
    m <= |owners| && j <= |routers| && owners[m..] == Assigned(networks, routers[j..], npr)
  }

  lemma FirstSlice(networks: nat, routers: seq<Name>, npr: nat)
    ensures SlicesLeft(Assigned(networks, routers, npr), 0, networks, routers, npr, 0)
  {
    assert routers[0..] == routers;
  }

  lemma NextSlice(owners: seq<Name>, m: nat, networks: nat, routers: seq<Name>, npr: nat, j: nat)
    requires j < |routers| && SlicesLeft(owners, m, networks, routers, npr, j)
    ensures var n := Min(npr, networks);
            && m + n <= |owners| && owners[m..m + n] == Repeat(n, routers[j])
            && SlicesLeft(owners, m + n, networks - n, routers, npr, j + 1)
  {
    var n := Min(npr, networks);
    assert routers[j..][1..] == routers[j + 1..];
    assert owners[m..] == Repeat(n, routers[j]) + Assigned(networks - n, routers[j + 1..], npr);
    assert owners[m..][..n] == owners[m..m + n] && owners[m..][n..] == owners[m + n..];
  }

  lemma LastSlice(owners: seq<Name>, m: nat, networks: nat, routers: seq<Name>, npr: nat)
    requires SlicesLeft(owners, m, networks, routers, npr, |routers|)
    ensures m == |owners|
  {
  }

  method ConnectNetworksToRouters(s: Scenario, nets: seq<Lswitch>, routers: seq<Name>, npr: nat)
    returns (r: Result<()>)
    requires s.Quiet()
    modifies s, s.nbctl
    ensures s.SameClient()
    ensures |Assigned(|nets|, routers, npr)| <= |nets|
    ensures r.Success? <==> forall k | 0 <= k < |Assigned(|nets|, routers, npr)| :: nets[k].cidr.Gateway(1) >= 0
    ensures r.Success? ==> s.Sends(Flatten(ConnectItems(nets, Assigned(|nets|, routers, npr))))
  {
    hide Scenario.Invokes, Scenario.Wire, Delivered, Assigned, SlicesLeft, ConnectItems, Flatten, Repeat;
    ghost var owners := Assigned(|nets|, routers, npr);
    AssignedFits(|nets|, routers, npr);
    FirstSlice(|nets|, routers, npr);
    var rest := nets;
    ghost var m := 0;
    ghost var sent := Delivered(s.Wire());
    NoItems(nets, owners);
    for j := 0 to |routers|
      invariant s.Quiet() && s.SameClient()
      invariant m <= |owners| && rest == nets[m..] && SlicesLeft(owners, m, |rest|, routers, npr, j)
      invariant |ConnectItems(nets, owners)| == |owners|
      invariant Delivered(s.Wire()) == sent + Flatten(ConnectItems(nets, owners)[..m])
      invariant forall k | 0 <= k < m :: nets[k].cidr.Gateway(1) >= 0
    {
      var count := Min(npr, |rest|);
      NextSlice(owners, m, |rest|, routers, npr, j);
      SliceOfItems(nets, owners, m, count, routers[j]);
      var _ :- ConnectSlice(s, routers[j], rest[..count]);
      rest := rest[count..];
      m := m + count;
    }
    LastSlice(owners, m, |rest|, routers, npr);
    assert ConnectItems(nets, owners)[..m] == ConnectItems(nets, owners);
    return Success(());
  }

  /** n networks can be given a gateway each, counting the step past the last subnet. */
  predicate Chain(gw: Cidr, ext: Cidr, n: nat) {
    n == 0 || (gw.Gateway(2) >= 0 && ext.Gateway(2) >= 0 && gw.Next(n).Some? && ext.Next(n).Some?)
  }

  predicate Link(gw: Cidr, ext: Cidr) {
    gw.Gateway(2) >= 0 && ext.Gateway(2) >= 0 && gw.Next(1).Some? && ext.Next(1).Some?
  }

  lemma ChainStep(gw: Cidr, ext: Cidr, i: nat, n: nat)
    requires i < n && Chain(gw, ext, i) && gw == gw.At(0) && ext == ext.At(0)
    ensures Link(gw.At(i), ext.At(i)) <==> Chain(gw, ext, i + 1)
    ensures !Link(gw.At(i), ext.At(i)) ==> !Chain(gw, ext, n)
    ensures gw.At(i).Next(1).Some? ==> gw.At(i).Next(1).value == gw.At(i + 1)
    ensures ext.At(i).Next(1).Some? ==> ext.At(i).Next(1).value == ext.At(i + 1)
  {
    hide Cidr.At, Cidr.Next, Cidr.Gateway;
    AtComposes(gw, i, 1);
    AtComposes(ext, i, 1);
    NextIsAt(gw.At(i), 1);
    NextIsAt(ext.At(i), 1);
    GatewayGrows(gw, i, 2);
    GatewayGrows(ext, i, 2);
    if Chain(gw, ext, n) {
      NextPrefix(gw, i + 1, n);
      NextPrefix(ext, i + 1, n);
    }
  }

  /** A chain of n is n links in a row: the loop raises at the first gateway without an address, or where it
      cannot step on from either subnet, the last one included. */
  lemma {:induction false} ChainIff(gw: Cidr, ext: Cidr, n: nat)
    requires gw == gw.At(0) && ext == ext.At(0)
    ensures Chain(gw, ext, n)
            <==> forall i: nat | i < n :: gw.At(i).Gateway(2) >= 0 && ext.At(i).Gateway(2) >= 0
                                          && gw.At(i).Next(1).Some? && ext.At(i).Next(1).Some?
  {
    hide Cidr.At, Cidr.Next, Cidr.Gateway;
    if n == 0 {
    } else {
      ChainIff(gw, ext, n - 1);
      if Chain(gw, ext, n - 1) {
        ChainStep(gw, ext, n - 1, n);
      } else {
        ShorterChain(gw, ext, n);
      }
    }
  }

  lemma ShorterChain(gw: Cidr, ext: Cidr, n: nat)
    requires n > 0
    ensures Chain(gw, ext, n) ==> Chain(gw, ext, n - 1)
  {
    if Chain(gw, ext, n) {
      NextPrefix(gw, n - 1, n);
      NextPrefix(ext, n - 1, n);
    }
  }

  method GatewaySlice(s: Scenario, router: Name, nets: seq<Lswitch>, sandboxes: seq<Sandbox>,
                      gw: Cidr, ext: Cidr, batch: bool)
    returns (r: Result<(seq<Dp>, Cidr, Cidr)>)
    requires s.Quiet() && gw == gw.At(0) && ext == ext.At(0)
    modifies s, s.nbctl
    ensures s.SameClient()
    ensures r.Success? <==> |nets| <= |sandboxes| && Chain(gw, ext, |nets|)
    ensures r.Success? ==> r.value.0 == Dps(nets, Repeat(|nets|, router), gw, ext)
                           && r.value.1 == gw.At(|nets|) && r.value.2 == ext.At(|nets|)
    ensures r.Success? ==> s.Sends(Flatten(GatewayItems(Repeat(|nets|, router), sandboxes, gw, ext)))
  {
    hide Scenario.Invokes, Scenario.Wire, Delivered, GatewayCmds, Chain, GatewayItems, Dps, DpOf, Repeat, Flatten, Cidr.At, Cidr.Next;
    SliceParts(router, nets, sandboxes, gw, ext);
    ghost var items := GatewayItems(Repeat(|nets|, router), sandboxes, gw, ext);
    ghost var all := Dps(nets, Repeat(|nets|, router), gw, ext);
    var gwCidr, extCidr, dps := gw, ext, [];
    for i := 0 to |nets|
      invariant s.Quiet() && s.SameClient()
      invariant Chain(gw, ext, i) && gwCidr == gw.At(i) && extCidr == ext.At(i) && dps == all[..i]
      invariant i <= |sandboxes| && Delivered(s.Wire()) == old(Delivered(s.Wire())) + Flatten(items[..i])
    {
      if i == |sandboxes| {
        return Failure(OutOfRange);
      }
      ChainStep(gw, ext, i, |nets|);
      ItemsUpTo(items, i);
      var dp :- ConnectGatewayRouter(s, router, nets[i], gwCidr, extCidr, sandboxes[i].container, batch);
      dps := dps + [dp];
      var nextGw, nextExt := gwCidr.Next(1), extCidr.Next(1);
      if nextGw.None? || nextExt.None? {
        return Failure(AddressOverflow);
      }
      gwCidr, extCidr := nextGw.value, nextExt.value;
    }
    assert items[..|nets|] == items && all[..|nets|] == all;
    return Success((dps, gwCidr, extCidr));
  }

  lemma SliceParts(router: Name, nets: seq<Lswitch>, sandboxes: seq<Sandbox>, gw: Cidr, ext: Cidr)
    ensures Chain(gw, ext, 0) && |Repeat(|nets|, router)| == |nets|
    ensures var items, all := GatewayItems(Repeat(|nets|, router), sandboxes, gw, ext),
                              Dps(nets, Repeat(|nets|, router), gw, ext);
            && |items| == |all| == |nets| && Flatten(items[..0]) == [] && all[..0] == []
            && forall i | 0 <= i < |nets| ::
                 && items[i] == GatewayCmds(router, gw.At(i), ext.At(i), ContainerAt(sandboxes, i))
                 && all[i] == DpOf(nets[i], router, gw.At(i), ext.At(i))
  {
  }

  lemma ChainSplit(gw: Cidr, ext: Cidr, m: nat, n: nat)
    requires gw == gw.At(0) && ext == ext.At(0)
    ensures Chain(gw, ext, m + n) <==> Chain(gw, ext, m) && Chain(gw.At(m), ext.At(m), n)
    ensures gw.At(m).At(0) == gw.At(m) && ext.At(m).At(0) == ext.At(m)
    ensures gw.At(m).At(n) == gw.At(m + n) && ext.At(m).At(n) == ext.At(m + n)
  {
    AtComposes(gw, m, n);
    AtComposes(ext, m, n);
    hide Cidr.At, Cidr.Next, Cidr.Gateway;
    AtComposes(gw, m, 0);
    AtComposes(ext, m, 0);
    GatewayGrows(gw, m, 2);
    GatewayGrows(ext, m, 2);
    if Chain(gw, ext, m + n) && m + n > 0 {
      NextPrefix(gw, m, m + n);
      NextPrefix(ext, m, m + n);
    }
  }

  lemma SliceOfGateways(owners: seq<Name>, sandboxes: seq<Sandbox>, gw: Cidr, ext: Cidr,
                        m: nat, count: nat, router: Name)
    requires m + count <= |owners| && m <= |sandboxes|
    requires owners[m..m + count] == Repeat(count, router)
    ensures Flatten(GatewayItems(owners, sandboxes, gw, ext)[..m + count])
            == Flatten(GatewayItems(owners, sandboxes, gw, ext)[..m])
               + Flatten(GatewayItems(Repeat(count, router), sandboxes[m..], gw.At(m), ext.At(m)))
  {
    hide GatewayCmds, Cidr.At;
    var items := GatewayItems(owners, sandboxes, gw, ext);
    assert forall i | m <= i < m + count :: owners[i] == owners[m..m + count][i - m];
    forall i | 0 <= i < count
      ensures gw.At(m).At(i) == gw.At(m + i) && ext.At(m).At(i) == ext.At(m + i)
    {
      AtComposes(gw, m, i);
      AtComposes(ext, m, i);
    }
    assert GatewayItems(Repeat(count, router), sandboxes[m..], gw.At(m), ext.At(m)) == items[m..m + count];
    ItemsRange(items, m, m + count);
  }

  lemma SliceOfDps(nets: seq<Lswitch>, owners: seq<Name>, gw: Cidr, ext: Cidr, m: nat, count: nat, router: Name)
    requires |owners| <= |nets| && m + count <= |owners|
    requires owners[m..m + count] == Repeat(count, router)
    ensures Dps(nets, owners, gw, ext)[..m + count]
            == Dps(nets, owners, gw, ext)[..m] + Dps(nets[m..][..count], Repeat(count, router), gw.At(m), ext.At(m))
  {
    hide DpOf, Cidr.At;
    var all := Dps(nets, owners, gw, ext);
    assert forall i | m <= i < m + count :: owners[i] == owners[m..m + count][i - m];
    forall i | 0 <= i < count
      ensures gw.At(m).At(i) == gw.At(m + i) && ext.At(m).At(i) == ext.At(m + i)
    {
      AtComposes(gw, m, i);
      AtComposes(ext, m, i);
    }
    assert Dps(nets[m..][..count], Repeat(count, router), gw.At(m), ext.At(m)) == all[m..m + count];
  }

  method ConnectNetworksToGwRouters(s: Scenario, nets: seq<Lswitch>, routers: seq<Name>, sandboxes: seq<Sandbox>,
                                    gw: Cidr, ext: Cidr, npr: nat, batch: bool)
    returns (r: Result<seq<Dp>>)
    requires s.Quiet() && gw == gw.At(0) && ext == ext.At(0)
    modifies s, s.nbctl
    ensures s.SameClient() && |Assigned(|nets|, routers, npr)| <= |nets|
    ensures r.Success? <==>
              |Assigned(|nets|, routers, npr)| <= |sandboxes| && Chain(gw, ext, |Assigned(|nets|, routers, npr)|)
    ensures r.Success? ==> r.value == Dps(nets, Assigned(|nets|, routers, npr), gw, ext)
    ensures r.Success? ==>
              s.Sends(Flatten(GatewayItems(Assigned(|nets|, routers, npr), sandboxes, gw, ext)))
  {
    hide Scenario.Invokes, Scenario.Wire, Delivered, Assigned, SlicesLeft, GatewayItems, Dps, Flatten, Repeat, Chain, Cidr.At;
    ghost var owners := Assigned(|nets|, routers, npr);
    AssignedFits(|nets|, routers, npr);
    FirstSlice(|nets|, routers, npr);
    NoGateways(nets, owners, sandboxes, gw, ext);
    var rest, boxes, gwCidr, extCidr, dps := nets, sandboxes, gw, ext, [];
    ghost var m := 0;
    ghost var sent := Delivered(s.Wire());
    for j := 0 to |routers|
      invariant s.Quiet() && s.SameClient()
      invariant m <= |owners| && m <= |sandboxes| && rest == nets[m..] && (rest != [] ==> boxes == sandboxes[m..])
      invariant SlicesLeft(owners, m, |rest|, routers, npr, j)
      invariant Chain(gw, ext, m) && gwCidr == gw.At(m) && extCidr == ext.At(m)
      invariant |GatewayItems(owners, sandboxes, gw, ext)| == |Dps(nets, owners, gw, ext)| == |owners|
      invariant dps == Dps(nets, owners, gw, ext)[..m]
      invariant Delivered(s.Wire()) == sent + Flatten(GatewayItems(owners, sandboxes, gw, ext)[..m])
    {
      var count := Min(npr, |rest|);
      NextSlice(owners, m, |rest|, routers, npr, j);
      SliceOfGateways(owners, sandboxes, gw, ext, m, count, routers[j]);
      SliceOfDps(nets, owners, gw, ext, m, count, routers[j]);
      if count == 0 {
        NoGateways(rest[..count], Repeat(count, routers[j]), boxes, gwCidr, extCidr);
        NoGateways(rest[..count], Repeat(count, routers[j]), sandboxes[m..], gwCidr, extCidr);
      }
      ChainSplit(gw, ext, m, count);
      ChainSplit(gw, ext, m + count, |owners| - (m + count));
      var slice :- GatewaySlice(s, routers[j], rest[..count], boxes, gwCidr, extCidr, batch);
      dps, gwCidr, extCidr := dps + slice.0, slice.1, slice.2;
      rest := rest[count..];
      boxes := boxes[Min(npr, |boxes|)..];
      m := m + count;
    }
    LastSlice(owners, m, |rest|, routers, npr);
    assert GatewayItems(owners, sandboxes, gw, ext)[..m] == GatewayItems(owners, sandboxes, gw, ext);
    return Success(dps);
  }

  lemma NoGateways(nets: seq<Lswitch>, owners: seq<Name>, sandboxes: seq<Sandbox>, gw: Cidr, ext: Cidr)
    requires |owners| <= |nets|
    ensures |GatewayItems(owners, sandboxes, gw, ext)| == |Dps(nets, owners, gw, ext)| == |owners|
    ensures Flatten(GatewayItems(owners, sandboxes, gw, ext)[..0]) == [] && Dps(nets, owners, gw, ext)[..0] == []
    ensures Chain(gw, ext, 0)
  {
  }

  method ConnectGwRoutersRoutes(s: Scenario, dps: seq<Dp>, cluster: Cidr, batch: bool)
    requires s.Quiet()
    modifies s, s.nbctl
    ensures s.Sends(Flatten(RouteItems(dps, cluster)))
  {
    hide Scenario.Invokes, Scenario.Wire, Delivered, RouteCmds, NbCtl.Issued, NbCtl.Ready;
    ghost var items := RouteItems(dps, cluster);
    var c := s.Begin(batch);
    ghost var before := c.Issued();
    for m := 0 to |dps|
      invariant c == s.nbctl && s.SameClient() && c.Ready()
      invariant c.Issued() == before + Flatten(items[..m])
    {
      ItemsUpTo(items, m);
      c.IssueAll(RouteCmds(dps[m], cluster));
      c.FlushReady();
    }
    assert items[..|dps|] == items;
    s.End(c);
  }

  // ---- ports on several switches

  function ExtFor(ext: Option<Cidr>, i: nat): Option<int> {
    if ext.Some? then Some(ext.value.At(i).Gateway(2)) else None
  }

  predicate LportsFit(nets: seq<Lswitch>, amount: nat, shift: nat, ext: Option<Cidr>, n: nat)
    requires n <= |nets|
  {
    forall i | 0 <= i < n :: LportFits(nets[i].cidr, amount, shift, ext, i)
  }

  predicate LportFits(net: Cidr, amount: nat, shift: nat, ext: Option<Cidr>, i: nat) {
    && (ext.Some? ==> ext.value.Next(i).Some?)
    && WindowFits(net, shift, amount)
    && (ext.Some? && amount > 0 ==> ext.value.At(i).Gateway(2) >= 0)
  }

  function LportItems(nets: seq<Lswitch>, amount: nat, shift: nat, security: bool): seq<seq<Cmd>> {
    seq(|nets|, i requires 0 <= i < |nets| =>
          Flatten(PortItems(nets[i].name, nets[i].cidr.ip + shift, amount, security)))
  }

  function LportLists(nets: seq<Lswitch>, amount: nat, shift: nat, ext: Option<Cidr>): seq<seq<Lport>> {
    seq(|nets|, i requires 0 <= i < |nets| => Ports(nets[i], shift, amount, ExtFor(ext, i)))
  }

  method CreateLports(s: Scenario, nets: seq<Lswitch>, amount: nat, shift: nat, ext: Option<Cidr>,
                      batch: int, security: bool)
    returns (r: Result<seq<Lport>>)
    requires s.Quiet() && forall i | 0 <= i < |nets| :: nets[i].cidr.Valid()
    modifies s, s.nbctl
    ensures s.SameClient()
    ensures r.Success? <==> LportsFit(nets, amount, shift, ext, |nets|)
    ensures r.Success? ==> r.value == Flatten(LportLists(nets, amount, shift, ext))
    ensures r.Success? ==> s.Sends(Flatten(LportItems(nets, amount, shift, security)))
  {
    hide Scenario.Invokes, Scenario.Wire, Delivered, PortItems, Ports, WindowFits, Cidr.At, Cidr.Next, Cidr.Gateway,
         Cidr.Valid, Flatten, LportItems, LportLists;
    NoLports(nets, amount, shift, ext, security);
    ghost var items, lists := LportItems(nets, amount, shift, security), LportLists(nets, amount, shift, ext);
    var lports := [];
    for i := 0 to |nets|
      invariant s.Quiet() && s.SameClient()
      invariant LportsFit(nets, amount, shift, ext, i)
      invariant Delivered(s.Wire()) == old(Delivered(s.Wire())) + Flatten(items[..i])
      invariant lports == Flatten(lists[..i])
    {
      var extCidr := None;
      if ext.Some? {
        extCidr := ext.value.Next(i);
        if extCidr.None? {
          assert !LportFits(nets[i].cidr, amount, shift, ext, i);
          return Failure(AddressOverflow);
        }
        NextIsAt(ext.value, i);
      }
      var more := s.CreateSwitchLports(nets[i], amount, shift, extCidr, batch, security);
      assert more.Success? <==> LportFits(nets[i].cidr, amount, shift, ext, i);
      if more.Failure? {
        return Failure(more.error);
      }
      lports := lports + more.value;
      LportsAt(nets, amount, shift, ext, security, i);
    }
    assert items[..|nets|] == items && lists[..|nets|] == lists;
    return Success(lports);
  }

  lemma NextIsAt(c: Cidr, k: nat)
    ensures c.Next(k).Some? ==> c.Next(k).value == c.At(k)
  {
  }

  lemma LportsAt(nets: seq<Lswitch>, amount: nat, shift: nat, ext: Option<Cidr>, security: bool, i: nat)
    requires i < |nets|
    ensures var items, lists := LportItems(nets, amount, shift, security), LportLists(nets, amount, shift, ext);
            && |items| == |lists| == |nets|
            && Flatten(items[..i + 1])
               == Flatten(items[..i]) + Flatten(PortItems(nets[i].name, nets[i].cidr.ip + shift, amount, security))
            && Flatten(lists[..i + 1]) == Flatten(lists[..i]) + Ports(nets[i], shift, amount, ExtFor(ext, i))
  {
    hide Flatten, PortItems, Ports;
    var items, lists := LportItems(nets, amount, shift, security), LportLists(nets, amount, shift, ext);
    ItemsUpTo(items, i);
    assert lists[..i + 1] == lists[..i] + [lists[i]];
    FlattenSnoc(lists[..i], lists[i]);
  }

  lemma NoLports(nets: seq<Lswitch>, amount: nat, shift: nat, ext: Option<Cidr>, security: bool)
    ensures |LportItems(nets, amount, shift, security)| == |LportLists(nets, amount, shift, ext)| == |nets|
    ensures Flatten(LportItems(nets, amount, shift, security)[..0]) == []
    ensures Flatten(LportLists(nets, amount, shift, ext)[..0]) == []
  {
  }

  // ---- one iteration of setup_switch_per_node

  datatype GatewayConfig = GatewayConfig(startGw: Cidr, startExt: Cidr, cluster: Cidr, batch: bool, physnet: string)
  datatype RoutedConfig = RoutedConfig(start: Cidr, amount: nat, switchBatch: int, settings: Settings, npr: nat,
                                       gateways: Option<GatewayConfig>, mgmtPort: bool, portBatch: int,
                                       portSecurity: bool, bind: BindArgs)

  /** The router of network m of an iteration, if it finds one: npr networks to a router, in order. */
  function RouterOf(cfg: RoutedConfig, routers: seq<Name>, m: nat): Option<Name> {
    if cfg.npr > 0 && m / cfg.npr < |routers| then Some(routers[m / cfg.npr]) else None
  }

  lemma RouterOfIff(cfg: RoutedConfig, routers: seq<Name>, m: nat)
    ensures RouterOf(cfg, routers, m).Some? <==> m < |routers| * cfg.npr
  {
    if cfg.npr > 0 {
      QuotientIff(m / cfg.npr, m % cfg.npr, |routers|, cfg.npr);
      assert m == m / cfg.npr * cfg.npr + m % cfg.npr;
    }
  }

  lemma QuotientIff(q: nat, r: nat, n: nat, npr: nat)
    requires r < npr
    ensures q < n <==> q * npr + r < n * npr
  {
    MulOrder(q, n, npr);
    MulOrder(n, q, npr);
  }

  /** Slicing networks off for one router after the other gives each the router of its index. */
  lemma OwnerAt(cfg: RoutedConfig, routers: seq<Name>, m: nat)
    requires m < cfg.amount
    ensures var owners := Assigned(cfg.amount, routers, cfg.npr);
            RouterOf(cfg, routers, m) == if m < |owners| then Some(owners[m]) else None
  {
    AssignedLength(cfg.amount, routers, cfg.npr);
    RouterOfIff(cfg, routers, m);
    if m < |routers| * cfg.npr {
      assert cfg.npr > 0;
      AssignedAt(cfg.amount, routers, cfg.npr, m);
    }
  }

  /** The sandboxes of `amount` networks, round robin from global index `first` on. */
  function Boxes(sandboxes: seq<Sandbox>, first: nat, amount: nat): (r: seq<Sandbox>)
    requires amount > 0 ==> |sandboxes| > 0
    ensures |r| == amount
  {
    seq(amount, i requires 0 <= i < amount => sandboxes[(first + i) % |sandboxes|])
  }

  function GatewayPart(g: GatewayConfig, first: nat, nets: seq<Lswitch>, owners: seq<Name>, boxes: seq<Sandbox>): seq<Cmd>
    requires |owners| <= |nets| <= |boxes|
  {
    var dps := Dps(nets, owners, g.startGw.At(first), g.startExt.At(first));
    Flatten(GatewayItems(owners, boxes, g.startGw.At(first), g.startExt.At(first)))
    + Flatten(PhynetItems(ExtSwitches(dps), g.physnet))
    + Flatten(RouteItems(dps, g.cluster))
  }

  method SetupGateways(s: Scenario, g: GatewayConfig, first: nat, nets: seq<Lswitch>, routers: seq<Name>,
                       boxes: seq<Sandbox>, npr: nat)
    returns (r: Result<seq<Dp>>)
    requires s.Quiet() && |nets| <= |boxes|
    modifies s, s.nbctl
    ensures s.SameClient() && |Assigned(|nets|, routers, npr)| <= |nets|
    ensures r.Success? <==> GatewaysFit(g, first, |Assigned(|nets|, routers, npr)|)
    ensures r.Success? ==>
              && r.value == Dps(nets, Assigned(|nets|, routers, npr), g.startGw.At(first), g.startExt.At(first))
              && s.Sends(GatewayPart(g, first, nets, Assigned(|nets|, routers, npr), boxes))
  {
    hide Scenario.Invokes, Scenario.Wire, Delivered, GatewayItems, PhynetItems, RouteItems, Dps, Assigned, Chain, Flatten,
         ExtSwitches, Cidr.At, Cidr.Next;
    AssignedFits(|nets|, routers, npr);
    var gw, ext := g.startGw.Next(first), g.startExt.Next(first);
    if gw.None? || ext.None? {
      return Failure(AddressOverflow);
    }
    NextIsAt(g.startGw, first);
    NextIsAt(g.startExt, first);
    AtComposes(g.startGw, first, 0);
    AtComposes(g.startExt, first, 0);
    var dps :- ConnectNetworksToGwRouters(s, nets, routers, boxes, gw.value, ext.value, npr, g.batch);
    s.CreatePhynet(ExtSwitches(dps), g.physnet, 1);
    ConnectGwRoutersRoutes(s, dps, g.cluster, g.batch);
    ThreeParts(old(Delivered(s.Wire())), Flatten(GatewayItems(Assigned(|nets|, routers, npr), boxes, gw.value, ext.value)),
               Flatten(PhynetItems(ExtSwitches(dps), g.physnet)), Flatten(RouteItems(dps, g.cluster)));
    return Success(dps);
  }

  /** Every command of the iteration whose first network has global index `first`. */
  function RoutedCmds(cfg: RoutedConfig, routers: seq<Name>, sandboxes: seq<Sandbox>, first: nat): seq<Cmd>
    requires cfg.amount > 0 ==> |sandboxes| > 0
  {
    var nets := Lswitches(cfg.start.At(first), cfg.amount);
    AssignedFits(cfg.amount, routers, cfg.npr);
    var owners := Assigned(cfg.amount, routers, cfg.npr);
    Flatten(SwitchItems(cfg.start.At(first), cfg.amount, cfg.settings))
    + Flatten(ConnectItems(nets, owners))
    + GatewayCmdsOf(cfg, first, nets, owners, Boxes(sandboxes, first, cfg.amount))
    + ManagementPart(cfg, first)
  }

  function GatewayCmdsOf(cfg: RoutedConfig, first: nat, nets: seq<Lswitch>, owners: seq<Name>, boxes: seq<Sandbox>): seq<Cmd>
    requires |owners| <= |nets| <= |boxes|
  {
    if cfg.gateways.Some? then GatewayPart(cfg.gateways.value, first, nets, owners, boxes) else []
  }

  /** The management ports, and the wait for them. */
  function ManagementPart(cfg: RoutedConfig, first: nat): seq<Cmd> {
    if cfg.mgmtPort then
      Flatten(LportItems(Lswitches(cfg.start.At(first), cfg.amount), 1, 1, cfg.portSecurity))
      + cfg.bind.Waits(NamesOf(RoutedLports(cfg, first)))
    else []
  }

  function ExtStart(cfg: RoutedConfig, first: nat): Option<Cidr> {
    if cfg.gateways.Some? then Some(cfg.gateways.value.startExt.At(first)) else None
  }

  predicate NetworksFit(cfg: RoutedConfig, routers: seq<Name>, first: nat) {
    && cfg.start.Next(first).Some? && Runs(cfg.start.At(first), cfg.amount)
    && forall k | 0 <= k < Min(|Assigned(cfg.amount, routers, cfg.npr)|, cfg.amount) ::
         Lswitches(cfg.start.At(first), cfg.amount)[k].cidr.Gateway(1) >= 0
  }

  /** Exactly when the iteration raises nothing. */
  predicate RoutedFits(cfg: RoutedConfig, routers: seq<Name>, sandboxes: seq<Sandbox>, first: nat) {
    && (cfg.amount > 0 ==> |sandboxes| > 0)
    && NetworksFit(cfg, routers, first)
    && (cfg.gateways.Some? ==> GatewaysFit(cfg.gateways.value, first, |Assigned(cfg.amount, routers, cfg.npr)|))
    && (cfg.mgmtPort ==> LportsFit(Lswitches(cfg.start.At(first), cfg.amount), 1, 1, ExtStart(cfg, first), cfg.amount))
    && (cfg.mgmtPort ==> cfg.bind.Known() && cfg.amount > 0)   // binding divides by the number of sandboxes
  }

  predicate GatewaysFit(g: GatewayConfig, first: nat, n: nat) {
    g.startGw.Next(first).Some? && g.startExt.Next(first).Some? && Chain(g.startGw.At(first), g.startExt.At(first), n)
  }

  lemma LswitchesValid(cfg: RoutedConfig, routers: seq<Name>, first: nat)
    requires cfg.start.Valid() && NetworksFit(cfg, routers, first)
    ensures var nets := Lswitches(cfg.start.At(first), cfg.amount);
            |nets| == cfg.amount && forall i | 0 <= i < |nets| :: nets[i].cidr.Valid()
  {
    hide Cidr.At, Cidr.Next, Cidr.Valid, Cidr.Gateway, Assigned;
    NextIsAt(cfg.start, first);
    NextComposes(cfg.start, first, 0);
    forall i | 0 <= i < cfg.amount
      ensures cfg.start.At(first).At(i).Valid()
    {
      NextIsAt(cfg.start.At(first), i);
      NextPrefix(cfg.start.At(first), i, cfg.amount - 1);
      NextComposes(cfg.start.At(first), i, 0);
    }
  }

  /** The gateway routers an iteration reports, and its management ports. */
  function RoutedDps(cfg: RoutedConfig, routers: seq<Name>, first: nat): seq<Dp>
    requires cfg.gateways.Some?
  {
    AssignedFits(cfg.amount, routers, cfg.npr);
    Dps(Lswitches(cfg.start.At(first), cfg.amount), Assigned(cfg.amount, routers, cfg.npr),
        cfg.gateways.value.startGw.At(first), cfg.gateways.value.startExt.At(first))
  }

  function RoutedLports(cfg: RoutedConfig, first: nat): seq<Lport> {
    Flatten(LportLists(Lswitches(cfg.start.At(first), cfg.amount), 1, 1, ExtStart(cfg, first)))
  }

  method CreateNetworks(s: Scenario, cfg: RoutedConfig, routers: seq<Name>, first: nat) returns (r: Result<seq<Lswitch>>)
    requires s.Quiet() && cfg.start.Valid()
    modifies s, s.nbctl
    ensures s.SameClient()
    ensures r.Success? <==> NetworksFit(cfg, routers, first)
    ensures r.Success? ==> r.value == Lswitches(cfg.start.At(first), cfg.amount)
    ensures |Assigned(cfg.amount, routers, cfg.npr)| <= cfg.amount
    ensures r.Success? ==>
              s.Sends(Flatten(SwitchItems(cfg.start.At(first), cfg.amount, cfg.settings))
                      + Flatten(ConnectItems(Lswitches(cfg.start.At(first), cfg.amount),
                                             Assigned(cfg.amount, routers, cfg.npr))))
  {
    hide Scenario.Invokes, Scenario.Wire, Delivered, SwitchItems, ConnectItems, Assigned, Flatten, Cidr.At, Cidr.Next,
         Cidr.Valid, Cidr.Gateway, Runs;
    AssignedFits(cfg.amount, routers, cfg.npr);
    var start := cfg.start.Next(first);
    if start.None? {
      return Failure(AddressOverflow);
    }
    NextIsAt(cfg.start, first);
    NextComposes(cfg.start, first, 0);
    var nets :- s.CreateLswitches(start.value, cfg.amount, cfg.switchBatch, cfg.settings);
    if cfg.npr > 0 {
      var _ :- ConnectNetworksToRouters(s, nets, routers, cfg.npr);
    } else {
      Unrouted(nets, routers);
    }
    return Success(nets);
  }

  /** _create_routed_network and its callers, for the iteration whose first network has index `first`. */
  method CreateFrom(s: Scenario, cfg: RoutedConfig, routers: seq<Name>, sandboxes: seq<Sandbox>, first: nat)
    returns (r: Result<(seq<Dp>, seq<Lport>)>)
    requires s.Quiet() && cfg.start.Valid()
    modifies s, s.nbctl
    ensures s.SameClient()
    ensures r.Success? <==> RoutedFits(cfg, routers, sandboxes, first)
    ensures r.Success? ==> s.Sends(RoutedCmds(cfg, routers, sandboxes, first))
    ensures r.Success? && cfg.gateways.Some? ==> r.value.0 == RoutedDps(cfg, routers, first)
    ensures r.Success? && cfg.mgmtPort ==> r.value.1 == RoutedLports(cfg, first)
  {
    hide Scenario.Invokes, Scenario.Wire, Delivered, SwitchItems, ConnectItems, GatewayCmdsOf, LportItems, LportLists,
         Dps, Assigned, Flatten, Cidr.At, Cidr.Next, Cidr.Valid, Lswitches, LportsFit, NetworksFit, GatewaysFit,
         ManagementPart, BindArgs.Known, ExtStart, Boxes, RoutedLports;
    if cfg.amount > 0 && |sandboxes| == 0 {
      return Failure(DivisionByZero);
    }
    var boxes := Boxes(sandboxes, first, cfg.amount);
    var nets :- CreateNetworks(s, cfg, routers, first);
    LswitchesValid(cfg, routers, first);
    var dps :- CreateGateways(s, cfg, routers, first, nets, boxes);
    var lports :- CreateManagementPorts(s, cfg, first, nets, |boxes|);
    ghost var owners := Assigned(cfg.amount, routers, cfg.npr);
    ThreeParts(old(Delivered(s.Wire())),
               Flatten(SwitchItems(cfg.start.At(first), cfg.amount, cfg.settings)) + Flatten(ConnectItems(nets, owners)),
               GatewayCmdsOf(cfg, first, nets, owners, boxes), ManagementPart(cfg, first));
    return Success((dps, lports));
  }

  lemma ThreeParts(sent: seq<Cmd>, a: seq<Cmd>, b: seq<Cmd>, c: seq<Cmd>)
    ensures sent + a + b + c == sent + (a + b + c)
  {
  }

  /** The gateways of an iteration, if it is to have any. */
  method CreateGateways(s: Scenario, cfg: RoutedConfig, routers: seq<Name>, first: nat, nets: seq<Lswitch>, boxes: seq<Sandbox>)
    returns (r: Result<seq<Dp>>)
    requires s.Quiet() && |nets| <= |boxes|
    modifies s, s.nbctl
    ensures s.SameClient() && |Assigned(|nets|, routers, cfg.npr)| <= |nets|
    ensures r.Success? <==>
              (cfg.gateways.Some? ==> GatewaysFit(cfg.gateways.value, first, |Assigned(|nets|, routers, cfg.npr)|))
    ensures r.Success? ==> s.Sends(GatewayCmdsOf(cfg, first, nets, Assigned(|nets|, routers, cfg.npr), boxes))
    ensures r.Success? && cfg.gateways.Some? ==>
              var g := cfg.gateways.value;
              r.value == Dps(nets, Assigned(|nets|, routers, cfg.npr), g.startGw.At(first), g.startExt.At(first))
  {
    hide Scenario.Invokes, Scenario.Wire, Delivered, GatewayPart, Dps, Assigned, GatewaysFit, Cidr.At;
    if cfg.gateways.None? {
      AssignedFits(|nets|, routers, cfg.npr);
      return Success([]);
    }
    r := SetupGateways(s, cfg.gateways.value, first, nets, routers, boxes, cfg.npr);
  }

  method CreateManagementPorts(s: Scenario, cfg: RoutedConfig, first: nat, nets: seq<Lswitch>, boxes: nat)
    returns (r: Result<seq<Lport>>)
    requires s.Quiet() && forall i | 0 <= i < |nets| :: nets[i].cidr.Valid()
    requires nets == Lswitches(cfg.start.At(first), cfg.amount)
    modifies s, s.nbctl
    ensures s.SameClient()
    ensures r.Success? <==> (cfg.mgmtPort ==>
                               LportsFit(nets, 1, 1, ExtStart(cfg, first), |nets|) && cfg.bind.Known() && boxes > 0)
    ensures r.Success? ==> s.Sends(ManagementPart(cfg, first))
    ensures r.Success? && cfg.mgmtPort ==> r.value == RoutedLports(cfg, first)
  {
    hide Scenario.Invokes, Scenario.Wire, Delivered, LportItems, LportLists, Flatten, Cidr.At, Cidr.Valid, Lswitches,
         LportsFit, NamesOf, BindArgs.Waits, BindArgs.Known, ExtStart;
    if !cfg.mgmtPort {
      return Success([]);
    }
    var lports :- CreateLports(s, nets, 1, 1, ExtStart(cfg, first), cfg.portBatch, cfg.portSecurity);
    var _ :- s.BindPortsAndWait(NamesOf(lports), boxes, cfg.bind);
    return Success(lports);
  }

  method CreateRoutedNetwork(s: Scenario, cfg: RoutedConfig, routers: seq<Name>, sandboxes: seq<Sandbox>, iteration: nat)
    returns (r: Result<(seq<Dp>, seq<Lport>)>)
    requires s.Quiet() && cfg.start.Valid()
    modifies s, s.nbctl
    ensures s.SameClient()
    ensures r.Success? <==> RoutedFits(cfg, routers, sandboxes, iteration * cfg.amount)
    ensures r.Success? ==> s.Sends(RoutedCmds(cfg, routers, sandboxes, iteration * cfg.amount))
    ensures r.Success? && cfg.gateways.Some? ==> r.value.0 == RoutedDps(cfg, routers, iteration * cfg.amount)
    ensures r.Success? && cfg.mgmtPort ==> r.value.1 == RoutedLports(cfg, iteration * cfg.amount)
  {
    hide *;
    r := CreateFrom(s, cfg, routers, sandboxes, iteration * cfg.amount);
  }

  lemma {:induction routers} Unrouted(nets: seq<Lswitch>, routers: seq<Name>)
    ensures Assigned(|nets|, routers, 0) == [] && Flatten(ConnectItems(nets, [])) == []
    decreases |routers|
  {
    if routers == [] {
    } else {
      Unrouted(nets, routers[1..]);
    }
  }
}
