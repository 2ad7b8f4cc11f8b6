/** Ports created iteration by iteration on the routed switches, with their policy and name space groups. */
module RoutedPorts {
  import opened Common
  import opened Cidrs
  import opened NorthDb
  import opened NbCtls
  import opened Builders

  /** The arguments of create_routed_lport, and how many sandboxes the context has. */
  datatype Config = Config(nets: seq<Lswitch>, batch: nat, offset: nat, policySize: nat, spaceSize: nat,
                           security: bool, createAcls: bool, bind: BindArgs, sandboxes: nat)

  // ---- addresses

  /** ip_start_index of an iteration. */
  function Shift(cfg: Config, t: nat): nat
    requires |cfg.nets| > 0
  {
    t * cfg.batch / |cfg.nets| + cfg.offset
  }

  function SwitchOf(cfg: Config, t: nat): Lswitch
    requires |cfg.nets| > 0
  {
    cfg.nets[t % |cfg.nets|]
  }

  /** Every iteration takes the next switch in turn, and batches spread over them evenly: the shift is the
      floor of the batches before over the switches, behind the offset. */
  lemma ShiftIs(cfg: Config, t: nat)
    requires |cfg.nets| > 0
    ensures |cfg.nets| * (Shift(cfg, t) - cfg.offset) <= t * cfg.batch < |cfg.nets| * (Shift(cfg, t) - cfg.offset + 1)
    ensures t < |cfg.nets| ==> SwitchOf(cfg, t) == cfg.nets[t]
    ensures t >= |cfg.nets| ==> SwitchOf(cfg, t) == SwitchOf(cfg, t - |cfg.nets|)
  {
    var n, q := |cfg.nets|, Shift(cfg, t) - cfg.offset;
    assert t * cfg.batch == n * q + t * cfg.batch % n;
    assert n * (q + 1) == n * q + n;
    if t < n {
      DivModUnique(t, n, 0, t);
    } else {
      var u := t - n;
      assert u == n * (u / n) + u % n;
      DivModUnique(t, n, u / n + 1, u % n);
    }
  }

  /** The first address of the window of iteration t. */
  function WindowIp(cfg: Config, t: nat): nat
    requires |cfg.nets| > 0
  {
    SwitchOf(cfg, t).cidr.ip + Shift(cfg, t)
  }

  /** Global index k is slot Slot(k) of iteration Iteration(k). */
  function Iteration(cfg: Config, k: nat): nat
    requires cfg.batch > 0
  {
    k / cfg.batch
  }

  function Slot(cfg: Config, k: nat): nat
    requires cfg.batch > 0
  {
    k % cfg.batch
  }

  lemma IndexParts(cfg: Config, k: nat)
    requires cfg.batch > 0
    ensures k == cfg.batch * Iteration(cfg, k) + Slot(cfg, k) && Slot(cfg, k) < cfg.batch
  {
  }

  lemma IndexOf(cfg: Config, t: nat, i: nat)
    requires i < cfg.batch
    ensures Iteration(cfg, cfg.batch * t + i) == t && Slot(cfg, cfg.batch * t + i) == i
  {
    DivModUnique(cfg.batch * t + i, cfg.batch, t, i);
  }

  /** The address of the port with global index k. */
  function PortIp(cfg: Config, k: nat): nat
    requires |cfg.nets| > 0 && cfg.batch > 0
  {
    WindowIp(cfg, Iteration(cfg, k)) + Slot(cfg, k)
  }

  predicate Fits(cfg: Config, t: nat)
    requires |cfg.nets| > 0
  {
    WindowFits(SwitchOf(cfg, t).cidr, Shift(cfg, t), cfg.batch)
  }

  ghost predicate DisjointNets(cfg: Config) {
    && (forall j | 0 <= j < |cfg.nets| :: cfg.nets[j].cidr.Valid())
    && (forall j, k | 0 <= j < k < |cfg.nets| :: Disjoint(cfg.nets[j].cidr, cfg.nets[k].cidr))
  }

  lemma FloorShift(x: nat, k: nat, b: nat, n: nat)
    requires n > 0
    ensures (x + k * n) * b / n == k * b + x * b / n
  {
    assert (x + k * n) * b == x * b + (k * b) * n by {
      assert (x + k * n) * b == x * b + k * n * b;
      assert k * n * b == (k * b) * n;
    }
    var q, r := x * b / n, x * b % n;
    assert x * b == n * q + r;
    assert x * b + (k * b) * n == (q + k * b) * n + r;
    DivModUnique(x * b + (k * b) * n, n, q + k * b, r);
  }

  /** The k-th next window of a switch starts k batches further on: the windows tile without gap. */
  lemma WindowsTile(cfg: Config, t: nat, k: nat)
    requires |cfg.nets| > 0
    ensures SwitchOf(cfg, t + k * |cfg.nets|) == SwitchOf(cfg, t)
    ensures WindowIp(cfg, t + k * |cfg.nets|) == WindowIp(cfg, t) + k * cfg.batch
  {
    FloorShift(t, k, cfg.batch, |cfg.nets|);
    var n := |cfg.nets|;
    assert t + k * n == (t / n + k) * n + t % n by {
      assert t == n * (t / n) + t % n;
      assert (t / n + k) * n == n * (t / n) + k * n;
    }
    DivModUnique(t + k * n, n, t / n + k, t % n);
  }

  lemma SameSwitchApart(cfg: Config, t: nat, u: nat)
    requires |cfg.nets| > 0 && t < u && t % |cfg.nets| == u % |cfg.nets|
    ensures WindowIp(cfg, u) >= WindowIp(cfg, t) + cfg.batch
  {
    var n := |cfg.nets|;
    var k := u / n - t / n;
    assert u == n * (u / n) + u % n && t == n * (t / n) + t % n;
    assert u - t == n * k;
    if k <= 0 {
      FactorGrows(n, k);
      assert false;
    }
    WindowsTile(cfg, t, k);
    FactorGrows(cfg.batch, k);
  }

  /** No two ports of a run get one address, hence one name. */
  lemma PortAddressesDistinct(cfg: Config, t: nat, i: nat, u: nat, j: nat)
    requires |cfg.nets| > 0 && DisjointNets(cfg) && Fits(cfg, t) && Fits(cfg, u)
    requires i < cfg.batch && j < cfg.batch && (t != u || i != j)
    ensures WindowIp(cfg, t) + i != WindowIp(cfg, u) + j
  {
    var s, r := t % |cfg.nets|, u % |cfg.nets|;
    if s == r {
      if t < u {
        SameSwitchApart(cfg, t, u);
      } else if u < t {
        SameSwitchApart(cfg, u, t);
      }
    } else {
      var a, b := cfg.nets[s].cidr, cfg.nets[r].cidr;
      assert a.Contains(WindowIp(cfg, t) + i) && b.Contains(WindowIp(cfg, u) + j);
      assert Disjoint(cfg.nets[if s < r then s else r].cidr, cfg.nets[if s < r then r else s].cidr);
    }
  }

  /** The same, by global index. */
  lemma PortIpsDistinct(cfg: Config, k: nat, l: nat)
    requires |cfg.nets| > 0 && cfg.batch > 0 && DisjointNets(cfg) && k != l
    requires Fits(cfg, Iteration(cfg, k)) && Fits(cfg, Iteration(cfg, l))
    ensures PortIp(cfg, k) != PortIp(cfg, l)
  {
    hide Iteration, Slot, WindowIp, Fits, DisjointNets;
    IndexParts(cfg, k);
    IndexParts(cfg, l);
    PortAddressesDistinct(cfg, Iteration(cfg, k), Slot(cfg, k), Iteration(cfg, l), Slot(cfg, l));
  }

  /** A window that passes the size check lies in the network and leaves out its last address; it takes
      the gateway's address exactly when it reaches as far as the check allows. */
  lemma WindowExact(net: Cidr, shift: nat, amount: nat)
    requires net.Valid() && amount > 0 && WindowFits(net, shift, amount)
    ensures var first := net.ip + shift;
            && (forall a: int | first <= a < first + amount :: net.Contains(a) && a != net.Last())
            && (first <= net.Gateway(1) < first + amount <==> first + amount == net.Last())
  {
  }

  /** Whether the window of iteration t takes an address. */
  predicate Takes(cfg: Config, t: nat, a: nat)
    requires |cfg.nets| > 0
  {
    WindowIp(cfg, t) <= a < WindowIp(cfg, t) + cfg.batch
  }

  /** The port of _create_lports at shift 1. */
  function ManagementIp(sw: Lswitch): nat {
    sw.cidr.ip + 1
  }

  /** Windows start behind the offset; those of the first round of the switches right there, if they are of
      one address, and the first of all in any case. */
  lemma WindowStarts(cfg: Config, t: nat)
    requires |cfg.nets| > 0
    ensures WindowIp(cfg, t) >= SwitchOf(cfg, t).cidr.ip + cfg.offset
    ensures t == 0 || (cfg.batch == 1 && t < |cfg.nets|) ==> WindowIp(cfg, t) == SwitchOf(cfg, t).cidr.ip + cfg.offset
  {
    if t < |cfg.nets| {
      DivModUnique(t, |cfg.nets|, 0, t);
    }
  }

  /** In a run of n iterations: an offset of 2 is enough, and an offset of 0 does as long as no window has
      moved up to the second address. */
  predicate Misses(cfg: Config, n: nat) {
    cfg.offset >= 2 || (cfg.offset == 0 && cfg.batch == 1 && n <= |cfg.nets|)
  }

  lemma MissedInRunIff(cfg: Config, n: nat)
    requires |cfg.nets| > 0 && cfg.batch > 0 && n > 0
    ensures (forall t: nat | t < n :: !Takes(cfg, t, ManagementIp(SwitchOf(cfg, t)))) <==> Misses(cfg, n)
  {
    hide WindowIp, SwitchOf;
    WindowStarts(cfg, 0);
    if cfg.offset == 1 || (cfg.offset == 0 && cfg.batch >= 2) {
      assert Takes(cfg, 0, ManagementIp(SwitchOf(cfg, 0)));
    } else if cfg.offset == 0 && n > |cfg.nets| {
      WindowsTile(cfg, 0, 1);
      assert Takes(cfg, |cfg.nets|, ManagementIp(SwitchOf(cfg, |cfg.nets|)));
    } else {
      forall t: nat | t < n
        ensures !Takes(cfg, t, ManagementIp(SwitchOf(cfg, t)))
      {
        WindowStarts(cfg, t);
      }
    }
  }

  /** Every window of every iteration misses its switch's management port exactly from an offset of 2 on. */
  lemma ManagementPortMissedIff(cfg: Config)
    requires |cfg.nets| > 0 && cfg.batch > 0
    ensures (forall t: nat :: !Takes(cfg, t, ManagementIp(SwitchOf(cfg, t)))) <==> cfg.offset >= 2
  {
    hide Takes, ManagementIp, SwitchOf;
    MissedInRunIff(cfg, |cfg.nets| + 1);
    if cfg.offset >= 2 {
      forall t: nat
        ensures !Takes(cfg, t, ManagementIp(SwitchOf(cfg, t)))
      {
        MissedInRunIff(cfg, t + 1);
      }
    }
  }

  // ---- the commands that put one port into its groups

  function GroupAcl(group: Name, direction: Direction, priority: int, match_: Match, action: Action): Acl {
    Acl(group, true, direction, priority, group, match_, action)
  }

  /** Add a port to a group, creating the group with its rules when asked to. */
  function MemberCmds(group: Name, port: Name, create: bool): seq<Cmd> {
    if create then [PgAdd(group, port)] else [GetPortUuid(port), PgAddPort(group, port)]
  }

  function AddressCmds(set_: Name, ip: nat, create: bool): seq<Cmd> {
    [if create then AsCreate(set_, ip) else AsAdd(set_, ip)]
  }

  function DefDenyAcls(): seq<Acl> {
    [GroupAcl(DefDeny, FromLport, 1001, Arp, Allow), GroupAcl(DefDeny, FromLport, 1000, Any, Drop),
     GroupAcl(DefDeny, ToLport, 1001, Arp, Allow), GroupAcl(DefDeny, ToLport, 1000, Any, Drop)]
  }

  function MultiDenyAcls(): seq<Acl> {
    [GroupAcl(MultiDefDeny, FromLport, 1011, Mcast, Drop), GroupAcl(MultiDefDeny, ToLport, 1011, Mcast, Drop)]
  }

  function SpaceAcls(group: Name): seq<Acl> {
    [GroupAcl(group, FromLport, 1012, Mcast, Allow), GroupAcl(group, ToLport, 1012, Mcast, Allow)]
  }

  /** The last rule's action is spelled " action" in the source, so the default stands. */
  function PolicyAcls(group: Name): seq<Acl> {
    [GroupAcl(group, FromLport, 1010, SrcIn(Ingress(group)), Allow), GroupAcl(group, FromLport, 1009, Ip4, AllowRelated),
     GroupAcl(group, ToLport, 1010, DstIn(Egress(group)), Allow), GroupAcl(group, ToLport, 1009, Ip4, Allow)]
  }

  function DenyCmds(group: Name, acls: seq<Acl>, index: nat, port: Name): seq<Cmd> {
    MemberCmds(group, port, index == 0) + if index == 0 then AclList(acls) else []
  }

  function PolicyCmds(group: Name, port: Name, ip: nat, create: bool): seq<Cmd> {
    MemberCmds(group, port, create) + PolicyAddressCmds(group, ip, create)
    + if create then AclList(PolicyAcls(group)) else []
  }

  function PolicyAddressCmds(group: Name, ip: nat, create: bool): seq<Cmd> {
    AddressCmds(Ingress(group), ip, create) + AddressCmds(Egress(group), ip, create)
  }

  function SpaceCmds(space: Name, port: Name, ip: nat, create: bool): seq<Cmd> {
    AddressCmds(space, ip, create) + MemberCmds(McastGroup(space), port, create)
    + if create then AclList(SpaceAcls(McastGroup(space))) else []
  }

  /** The group of an index, when indexes are grouped `size` by `size`. */
  function ClassNo(index: nat, size: nat): nat
    requires size > 0
  {
    index / size
  }

  /** Whether an index is the first of its group, so that the group is to be created. */
  predicate Opens(index: nat, size: nat)
    requires size > 0
  {
    index % size == 0
  }

  /** Everything configure_routed_lport sends for the port of one global index. */
  function GroupCmds(port: Name, index: nat, ip: nat, policySize: nat, spaceSize: nat): seq<Cmd>
    requires policySize > 0 && spaceSize > 0
  {
    DenyCmds(DefDeny, DefDenyAcls(), index, port) + DenyCmds(MultiDefDeny, MultiDenyAcls(), index, port)
    + PolicyCmds(NetworkPolicy(ClassNo(index, policySize)), port, ip, Opens(index, policySize))
    + SpaceCmds(NameSpace(ClassNo(index, spaceSize)), port, ip, Opens(index, spaceSize))
  }

  // ---- the operations

  function ArgsOf(acl: Acl): AclArgs {
    AclArgs(acl.direction, acl.priority, acl.action, Some(acl.match_), true)
  }

  /** _create_acl for one port group. */
  method CreateGroupAcl(s: Scenario, acl: Acl)
    requires s.Quiet() && acl.ofGroup && acl.port == acl.entity
    modifies s, s.nbctl
    ensures s.Sends([AclAdd(acl)])
  {
    hide Delivered, Scenario.Wire, Scenario.Invokes;
    var items := AclItems(acl.entity, [acl.entity], ArgsOf(acl), 1);
    assert items == [AclCmds(acl.entity, acl.entity, ArgsOf(acl), 1)];
    assert items[0] == [AclAdd(acl)];
    assert Flatten(items) == items[0] + Flatten(items[1..]);
    s.CreateAcl(acl.entity, [acl.entity], ArgsOf(acl), 1);
  }

  method CreateGroupAcls(s: Scenario, acls: seq<Acl>)
    requires s.Quiet() && GroupAcls(acls)
    modifies s, s.nbctl
    ensures s.Sends(AclList(acls))
  {
    hide Delivered, Scenario.Wire, Scenario.Invokes;
    for i := 0 to |acls|
      invariant s.Quiet() && s.SameClient()
      invariant Delivered(s.Wire()) == old(Delivered(s.Wire())) + AclList(acls)[..i]
    {
      CreateGroupAcl(s, acls[i]);
      assert AclList(acls)[..i + 1] == AclList(acls)[..i] + [AclAdd(acls[i])];
    }
    assert AclList(acls)[..|acls|] == AclList(acls);
  }

  method AddMember(s: Scenario, group: Name, port: Name, create: bool)
    requires s.Quiet()
    modifies s, s.nbctl
    ensures s.Sends(MemberCmds(group, port, create))
  {
    if create {
      s.RunNow(PgAdd(group, port));
    } else {
      s.PortGroupAddPort(group, port);
    }
  }

  method AddAddress(s: Scenario, set_: Name, ip: nat, create: bool)
    requires s.Quiet()
    modifies s, s.nbctl
    ensures s.Sends(AddressCmds(set_, ip, create))
  {
    if create {
      s.RunNow(AsCreate(set_, ip));
    } else {
      s.RunNow(AsAdd(set_, ip));
    }
  }

  /** create_or_update_default_deny_port_group and its multicast twin. */
  method CreateOrUpdateDeny(s: Scenario, group: Name, acls: seq<Acl>, index: nat, port: Name)
    requires s.Quiet() && GroupAcls(acls)
    modifies s, s.nbctl
    ensures s.Sends(DenyCmds(group, acls, index, port))
  {
    hide Delivered, Scenario.Wire, Scenario.Invokes, MemberCmds, AclList;
    AddMember(s, group, port, index == 0);
    if index == 0 {
      CreateGroupAcls(s, acls);
    }
  }

  method CreateOrUpdatePolicyAddresses(s: Scenario, group: Name, ip: nat, create: bool)
    requires s.Quiet()
    modifies s, s.nbctl
    ensures s.Sends(PolicyAddressCmds(group, ip, create))
  {
    hide Delivered, Scenario.Wire, Scenario.Invokes, AddressCmds;
    AddAddress(s, Ingress(group), ip, create);
    AddAddress(s, Egress(group), ip, create);
  }

  method CreateOrUpdateNetworkPolicy(s: Scenario, group: Name, port: Name, index: nat, ip: nat, create: bool)
    requires s.Quiet()
    modifies s, s.nbctl
    ensures s.Sends(DenyCmds(DefDeny, DefDenyAcls(), index, port) + DenyCmds(MultiDefDeny, MultiDenyAcls(), index, port)
                    + PolicyCmds(group, port, ip, create))
  {
    GroupAclsShape(group);
    hide Delivered, Scenario.Wire, Scenario.Invokes, DenyCmds, PolicyCmds, DefDenyAcls, MultiDenyAcls;
    CreateOrUpdateDeny(s, DefDeny, DefDenyAcls(), index, port);
    CreateOrUpdateDeny(s, MultiDefDeny, MultiDenyAcls(), index, port);
    CreateOrUpdatePolicyGroup(s, group, port, ip, create);
  }

  method CreateOrUpdatePolicyGroup(s: Scenario, group: Name, port: Name, ip: nat, create: bool)
    requires s.Quiet()
    modifies s, s.nbctl
    ensures s.Sends(PolicyCmds(group, port, ip, create))
  {
    GroupAclsShape(group);
    hide Delivered, Scenario.Wire, Scenario.Invokes, MemberCmds, PolicyAddressCmds, AclList, PolicyAcls,
         GroupAcls;
    AddMember(s, group, port, create);
    CreateOrUpdatePolicyAddresses(s, group, ip, create);
    if create {
      CreateGroupAcls(s, PolicyAcls(group));
    }
  }

  predicate GroupAcls(acls: seq<Acl>) {
    forall i | 0 <= i < |acls| :: acls[i].ofGroup && acls[i].port == acls[i].entity
  }

  lemma GroupAclsShape(group: Name)
    ensures GroupAcls(DefDenyAcls()) && GroupAcls(MultiDenyAcls()) && GroupAcls(PolicyAcls(group))
    ensures GroupAcls(SpaceAcls(group))
  {
  }

  method CreateOrUpdateNameSpace(s: Scenario, space: Name, port: Name, ip: nat, create: bool)
    requires s.Quiet()
    modifies s, s.nbctl
    ensures s.Sends(SpaceCmds(space, port, ip, create))
  {
    GroupAclsShape(McastGroup(space));
    hide Delivered, Scenario.Wire, Scenario.Invokes, MemberCmds, AddressCmds, AclList, SpaceAcls,
         GroupAcls;
    AddAddress(s, space, ip, create);
    AddMember(s, McastGroup(space), port, create);
    if create {
      CreateGroupAcls(s, SpaceAcls(McastGroup(space)));
    }
  }

  /** The group commands of the ports of iteration t, in slot order. */
  function GroupItems(cfg: Config, t: nat): seq<seq<Cmd>>
    requires |cfg.nets| > 0 && cfg.policySize > 0 && cfg.spaceSize > 0
  {
    seq(cfg.batch, i requires 0 <= i < cfg.batch =>
          GroupCmds(Lp(WindowIp(cfg, t) + i), cfg.batch * t + i, WindowIp(cfg, t), cfg.policySize, cfg.spaceSize))
  }

  function WindowNames(cfg: Config, t: nat): seq<Name>
    requires |cfg.nets| > 0
  {
    seq(cfg.batch, i requires 0 <= i < cfg.batch => Lp(WindowIp(cfg, t) + i))
  }

  function WaitPart(cfg: Config, t: nat): seq<Cmd>
    requires |cfg.nets| > 0
  {
    cfg.bind.Waits(WindowNames(cfg, t))
  }

  function WindowItems(cfg: Config, t: nat): seq<seq<Cmd>>
    requires |cfg.nets| > 0
  {
    PortItems(SwitchOf(cfg, t).name, WindowIp(cfg, t), cfg.batch, cfg.security)
  }

  /** Where the commands are computed by division, it is by something. */
  predicate Divides(cfg: Config) {
    |cfg.nets| > 0 && (cfg.createAcls && cfg.batch > 0 ==> cfg.policySize > 0 && cfg.spaceSize > 0)
  }

  /** Exactly when iteration t raises nothing. */
  predicate Succeeds(cfg: Config, t: nat) {
    Divides(cfg) && cfg.sandboxes > 0 && Fits(cfg, t) && cfg.bind.Known()
  }

  function IterationCmds(cfg: Config, t: nat): seq<Cmd>
    requires Divides(cfg)
  {
    Flatten(WindowItems(cfg, t)) + (GroupPart(cfg, t) + WaitPart(cfg, t))
  }

  function GroupPart(cfg: Config, t: nat): seq<Cmd>
    requires Divides(cfg)
  {
    if cfg.createAcls && cfg.batch > 0 then Flatten(GroupItems(cfg, t)) else []
  }

  method GroupPorts(s: Scenario, cfg: Config, t: nat, lports: seq<Lport>)
    requires s.Quiet() && |cfg.nets| > 0 && cfg.policySize > 0 && cfg.spaceSize > 0
    requires lports == Ports(SwitchOf(cfg, t), Shift(cfg, t), cfg.batch, None) && |lports| == cfg.batch
    modifies s, s.nbctl
    ensures s.Sends(Flatten(GroupItems(cfg, t)))
  {
    hide Delivered, Scenario.Wire, Scenario.Invokes, GroupCmds, GroupItems, Flatten, Ports, Shift, SwitchOf;
    ghost var items := GroupItems(cfg, t);
    GroupItemCount(cfg, t);
    var ipaddr := SwitchOf(cfg, t).cidr.ip + Shift(cfg, t);
    for i := 0 to cfg.batch
      invariant s.Quiet() && s.SameClient()
      invariant Delivered(s.Wire()) == old(Delivered(s.Wire())) + Flatten(items[..i])
    {
      GroupItemAt(cfg, t, i);
      PortAt(cfg, t, i);
      GroupPort(s, lports[i].name, cfg.batch * t + i, ipaddr, cfg.policySize, cfg.spaceSize);
    }
    assert items[..cfg.batch] == items;
  }

  lemma GroupItemCount(cfg: Config, t: nat)
    requires |cfg.nets| > 0 && cfg.policySize > 0 && cfg.spaceSize > 0
    ensures |GroupItems(cfg, t)| == cfg.batch && Flatten(GroupItems(cfg, t)[..0]) == []
  {
  }

  lemma GroupItemAt(cfg: Config, t: nat, i: nat)
    requires |cfg.nets| > 0 && cfg.policySize > 0 && cfg.spaceSize > 0 && i < cfg.batch
    ensures var items := GroupItems(cfg, t);
            && |items| == cfg.batch
            && Flatten(items[..i + 1])
               == Flatten(items[..i]) + GroupCmds(Lp(WindowIp(cfg, t) + i), cfg.batch * t + i, WindowIp(cfg, t),
                                                  cfg.policySize, cfg.spaceSize)
  {
    hide GroupCmds, Flatten, WindowIp;
    var items := GroupItems(cfg, t);
    assert items[..i + 1] == items[..i] + [items[i]];
    FlattenSnoc(items[..i], items[i]);
  }

  method GroupPort(s: Scenario, port: Name, index: nat, ip: nat, policySize: nat, spaceSize: nat)
    requires s.Quiet() && policySize > 0 && spaceSize > 0
    modifies s, s.nbctl
    ensures s.Sends(GroupCmds(port, index, ip, policySize, spaceSize))
  {
    hide Delivered, Scenario.Wire, Scenario.Invokes, DenyCmds, PolicyCmds, SpaceCmds;
    CreateOrUpdateNetworkPolicy(s, NetworkPolicy(ClassNo(index, policySize)), port, index, ip, Opens(index, policySize));
    CreateOrUpdateNameSpace(s, NameSpace(ClassNo(index, spaceSize)), port, ip, Opens(index, spaceSize));
  }

  /** create_routed_lport and configure_routed_lport, up to the binding on the chassis. */
  method CreateRoutedLport(s: Scenario, cfg: Config, iteration: nat) returns (r: Result<seq<Lport>>)
    requires s.Quiet() && forall j | 0 <= j < |cfg.nets| :: cfg.nets[j].cidr.Valid()
    modifies s, s.nbctl
    ensures s.SameClient()
    ensures r.Success? <==> Succeeds(cfg, iteration)
    ensures r.Success? ==> r.value == Ports(SwitchOf(cfg, iteration), Shift(cfg, iteration), cfg.batch, None)
    ensures r.Success? ==> s.Sends(IterationCmds(cfg, iteration))
  {
    hide BindArgs.Known, Delivered, Scenario.Wire, Scenario.Invokes, GroupPart, WaitPart, PortItems, Ports, Flatten, WindowFits;
    if |cfg.nets| == 0 {
      return Failure(DivisionByZero);
    }
    var lswitch, start := SwitchOf(cfg, iteration), Shift(cfg, iteration);
    assert lswitch.cidr.Valid();
    hide SwitchOf, Shift, Cidr.Valid;
    var lports :- s.CreateSwitchLports(lswitch, cfg.batch, start, None, cfg.batch, cfg.security);
    if cfg.createAcls && cfg.batch > 0 && (cfg.policySize == 0 || cfg.spaceSize == 0) {
      return Failure(DivisionByZero);   // raised by the first port
    }
    var _ :- ConfigureRoutedLport(s, cfg, iteration, lports);
    return Success(lports);
  }

  /** configure_routed_lport once the ports are there: their groups, the binding and the wait. */
  method ConfigureRoutedLport(s: Scenario, cfg: Config, iteration: nat, lports: seq<Lport>) returns (r: Result<()>)
    requires s.Quiet() && |cfg.nets| > 0
    requires cfg.createAcls && cfg.batch > 0 ==> cfg.policySize > 0 && cfg.spaceSize > 0
    requires lports == Ports(SwitchOf(cfg, iteration), Shift(cfg, iteration), cfg.batch, None)
    modifies s, s.nbctl
    ensures s.SameClient()
    ensures r.Success? <==> cfg.sandboxes > 0 && cfg.bind.Known()
    ensures r.Success? ==> s.Sends(GroupPart(cfg, iteration) + WaitPart(cfg, iteration))
  {
    hide Delivered, Scenario.Wire, Scenario.Invokes, GroupItems, PortItems, Ports, Flatten, SwitchOf, Shift,
         BindArgs.Waits, BindArgs.Known;
    WindowNamesOf(cfg, iteration);
    if cfg.createAcls && cfg.batch > 0 {
      GroupPorts(s, cfg, iteration, lports);
    }
    if cfg.sandboxes == 0 {
      return Failure(DivisionByZero);   // iteration % len(sandboxes)
    }
    r := s.BindPortsAndWait(NamesOf(lports), 1, cfg.bind);
  }

  lemma WindowNamesOf(cfg: Config, t: nat)
    requires |cfg.nets| > 0
    ensures |Ports(SwitchOf(cfg, t), Shift(cfg, t), cfg.batch, None)| == cfg.batch
    ensures NamesOf(Ports(SwitchOf(cfg, t), Shift(cfg, t), cfg.batch, None)) == WindowNames(cfg, t)
  {
    forall i: nat | i < cfg.batch
      ensures NamesOf(Ports(SwitchOf(cfg, t), Shift(cfg, t), cfg.batch, None))[i] == WindowNames(cfg, t)[i]
    {
      PortAt(cfg, t, i);
    }
  }

  lemma PortAt(cfg: Config, t: nat, i: nat)
    requires |cfg.nets| > 0 && i < cfg.batch
    ensures var ip := WindowIp(cfg, t) + i;
            Ports(SwitchOf(cfg, t), Shift(cfg, t), cfg.batch, None)[i] == Lport(Lp(ip), ip, SwitchOf(cfg, t).cidr.Gateway(1), None)
  {
    hide Shift, SwitchOf;
    var ip := SwitchOf(cfg, t).cidr.ip + Shift(cfg, t) + i;
    assert WindowIp(cfg, t) + i == ip;
    assert Ports(SwitchOf(cfg, t), Shift(cfg, t), cfg.batch, None)[i] == Lport(Lp(ip), ip, SwitchOf(cfg, t).cidr.Gateway(1), None);
  }

  function RunCmds(cfg: Config, n: nat): seq<Cmd>
    requires n > 0 ==> Divides(cfg)
  {
    if n == 0 then [] else RunCmds(cfg, n - 1) + IterationCmds(cfg, n - 1)
  }

  /** A serial run of n iterations. */
  method RunIterations(s: Scenario, cfg: Config, n: nat) returns (r: Result<()>)
    requires s.Quiet() && forall j | 0 <= j < |cfg.nets| :: cfg.nets[j].cidr.Valid()
    modifies s, s.nbctl
    ensures s.SameClient()
    ensures r.Success? <==> forall t | 0 <= t < n :: Succeeds(cfg, t)
    ensures r.Success? ==> (n > 0 ==> Divides(cfg)) && s.Sends(RunCmds(cfg, n))
  {
    hide Delivered, Scenario.Wire, Scenario.Invokes, IterationCmds, Fits, BindArgs.Known, SwitchOf, Shift, Cidr.Valid, Ports,
         Divides;
    for t := 0 to n
      invariant s.Quiet() && s.SameClient()
      invariant (t > 0 ==> Divides(cfg)) && forall u | 0 <= u < t :: Succeeds(cfg, u)
      invariant Delivered(s.Wire()) == old(Delivered(s.Wire())) + RunCmds(cfg, t)
    {
      var _ :- CreateRoutedLport(s, cfg, t);
    }
    return Success(());
  }
}
