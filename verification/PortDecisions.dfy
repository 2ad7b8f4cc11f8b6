/** What the rules of the groups decide for the packets of a port. */
module PortDecisions {
  import opened Common
  import opened NorthDb
  import opened RoutedPorts
  import opened RoutedPortsDb

  /** The rules of some groups. */
  function RulesAmong(db: Db, groups: set<Name>): set<Acl> {
    set a | a in db.acls && a.ofGroup && a.entity in groups
  }

  /** The rules of all the groups that a run makes. */
  function RunRules(db: Db): set<Acl> {
    set a | a in db.acls && a.ofGroup && Made(a.entity)
  }

  // ---- the rules of each group

  lemma DenyRules(a: Acl)
    ensures a in DefDenyAcls() ==> (a.match_ == Arp && a.priority == 1001 && a.action == Allow)
                                   || (a.match_ == Any && a.priority == 1000 && a.action == Drop)
    ensures a in MultiDenyAcls() ==> a.match_ == Mcast && a.priority == 1011 && a.action == Drop
  {
  }

  lemma SpaceRules(group: Name, a: Acl)
    ensures a in SpaceAcls(group) ==> a.match_ == Mcast && a.priority == 1012 && a.action == Allow
  {
  }

  lemma PolicyRules(group: Name, a: Acl)
    requires a in PolicyAcls(group)
    ensures a.priority == 1010 || a.priority == 1009
    ensures a.priority == 1010 ==>
              a.action == Allow && a.match_ == if a.direction.FromLport? then SrcIn(Ingress(group)) else DstIn(Egress(group))
    ensures a.priority == 1009 ==>
              a.match_ == Ip4 && a.action == if a.direction.FromLport? then AllowRelated else Allow
  {
  }

  /** Each kind of rule is there for both directions. */
  lemma RulesThere(group: Name, direction: Direction)
    ensures GroupAcl(DefDeny, direction, 1001, Arp, Allow) in DefDenyAcls()
    ensures GroupAcl(DefDeny, direction, 1000, Any, Drop) in DefDenyAcls()
    ensures GroupAcl(MultiDefDeny, direction, 1011, Mcast, Drop) in MultiDenyAcls()
    ensures GroupAcl(group, direction, 1012, Mcast, Allow) in SpaceAcls(group)
    ensures GroupAcl(group, direction, 1010, if direction.FromLport? then SrcIn(Ingress(group)) else DstIn(Egress(group)), Allow)
            in PolicyAcls(group)
    ensures GroupAcl(group, direction, 1009, Ip4, if direction.FromLport? then AllowRelated else Allow) in PolicyAcls(group)
  {
    var d, m, s, p := DefDenyAcls(), MultiDenyAcls(), SpaceAcls(group), PolicyAcls(group);
    var i := if direction.FromLport? then 0 else 1;
    assert d[2 * i] in d && d[2 * i + 1] in d && m[i] in m && s[i] in s && p[2 * i] in p && p[2 * i + 1] in p;
  }

  /** A rule decides if it is there, matches, and no matching rule of the groups around is stronger. */
  lemma DecidedBy(db: Db, rules: set<Acl>, port: Name, direction: Direction, packet: Packet, top: Acl)
    requires Ruled(db) && Made(top.entity) && top.ofGroup && top.port == top.entity && Member(db, top.entity, port)
    requires top in RulesOf(top.entity) && top.direction == direction && Matches(db, top.match_, packet)
    requires top in db.acls ==> top in rules
    requires forall a | a in rules :: a in db.acls && a.ofGroup && Made(a.entity)
    requires forall a | a in rules && Member(db, a.entity, port) && a in RulesOf(a.entity) && a.direction == direction
                        && Matches(db, a.match_, packet) ::
               a.priority < top.priority || (a.priority == top.priority && a.action == top.action)
    ensures Decides(db, rules, port, direction, packet, Decision(top.priority, top.action))
  {
    hide Made, RulesOf, Matches;
    RuleThere(db, top);
    forall a | a in rules
      ensures a in RulesOf(a.entity)
    {
      RuleOwn(db, a);
    }
    hide Member, Ruled;
    assert Hits(db, top, port, direction, packet);
    assert TopRule(db, rules, port, direction, packet, top);
  }

  lemma RuleThere(db: Db, a: Acl)
    requires Ruled(db) && Made(a.entity) && a.ofGroup && a.entity in db.groups && a in RulesOf(a.entity)
    ensures a in db.acls
  {
  }

  lemma RuleOwn(db: Db, a: Acl)
    requires Ruled(db) && Made(a.entity) && a.ofGroup && a in db.acls
    ensures a in RulesOf(a.entity)
  {
  }

  /** The same for the rules of some groups. */
  lemma DecidedAmong(db: Db, groups: set<Name>, port: Name, direction: Direction, packet: Packet, top: Acl)
    requires Ruled(db) && top.entity in groups && top.ofGroup && top.port == top.entity && Member(db, top.entity, port)
    requires forall g | g in groups :: Made(g)
    requires top in RulesOf(top.entity) && top.direction == direction && Matches(db, top.match_, packet)
    requires forall a | a in RulesAmong(db, groups) && Matches(db, a.match_, packet) && a.direction == direction ::
               a.priority < top.priority || (a.priority == top.priority && a.action == top.action)
    ensures Decides(db, RulesAmong(db, groups), port, direction, packet, Decision(top.priority, top.action))
  {
    hide Made, RulesOf, Matches, Ruled, Decides, Member;
    DecidedBy(db, RulesAmong(db, groups), port, direction, packet, top);
  }

  /** The default-deny group lets ARP through and nothing else, in both directions. */
  lemma DefDenyDecides(db: Db, port: Name, direction: Direction, packet: Packet)
    requires Ruled(db) && Member(db, DefDeny, port)
    ensures Decides(db, RulesAmong(db, {DefDeny}), port, direction, packet,
                    if packet.ArpPacket? then Decision(1001, Allow) else Decision(1000, Drop))
  {
    var top := if packet.ArpPacket? then GroupAcl(DefDeny, direction, 1001, Arp, Allow)
               else GroupAcl(DefDeny, direction, 1000, Any, Drop);
    RulesThere(DefDeny, direction);
    hide DefDenyAcls, MultiDenyAcls;
    forall a | a in RulesAmong(db, {DefDeny}) && Matches(db, a.match_, packet)
      ensures a.priority < top.priority || (a.priority == top.priority && a.action == top.action)
    {
      RuleOwn(db, a);
      DenyRules(a);
    }
    hide Ruled, Decides, RulesAmong;
    DecidedAmong(db, {DefDeny}, port, direction, packet, top);
  }

  lemma MulticastRule(db: Db, K: nat, a: Acl)
    requires Ruled(db) && a in RulesAmong(db, {MultiDefDeny, McastGroup(NameSpace(K))})
    ensures a.match_ == Mcast && a.priority == (if a.entity == MultiDefDeny then 1011 else 1012)
    ensures a.action == if a.entity == MultiDefDeny then Drop else Allow
  {
    hide DefDenyAcls, MultiDenyAcls, PolicyAcls, SpaceAcls;
    RuleOwn(db, a);
    DenyRules(a);
    SpaceRules(a.entity, a);
  }

  predicate Multicast(packet: Packet) {
    packet.Ip4Packet? && packet.mcast
  }

  /** The multicast default-deny group drops multicast; a name space's group, where a port is in both, allows
      it; and neither says anything of other packets. */
  lemma MulticastDecides(db: Db, K: nat, port: Name, direction: Direction, packet: Packet)
    requires Ruled(db) && Member(db, MultiDefDeny, port) && Member(db, McastGroup(NameSpace(K)), port)
    ensures Multicast(packet) ==> Decides(db, RulesAmong(db, {MultiDefDeny}), port, direction, packet, Decision(1011, Drop))
    ensures var rules := RulesAmong(db, {MultiDefDeny, McastGroup(NameSpace(K))});
            if Multicast(packet) then Decides(db, rules, port, direction, packet, Decision(1012, Allow))
            else forall a | a in rules :: !Hits(db, a, port, direction, packet)
  {
    var group := McastGroup(NameSpace(K));
    RulesThere(group, direction);
    hide Ruled, Decides, MultiDenyAcls, SpaceAcls, Hits;
    forall a | a in RulesAmong(db, {MultiDefDeny, group})
      ensures a.match_ == Mcast && a.priority == (if a.entity == MultiDefDeny then 1011 else 1012)
      ensures a.action == if a.entity == MultiDefDeny then Drop else Allow
    {
      MulticastRule(db, K, a);
    }
    if Multicast(packet) {
      assert forall a | a in RulesAmong(db, {MultiDefDeny}) :: a in RulesAmong(db, {MultiDefDeny, group}) && a.entity == MultiDefDeny;
      hide RulesAmong;
      DecidedAmong(db, {MultiDefDeny}, port, direction, packet, GroupAcl(MultiDefDeny, direction, 1011, Mcast, Drop));
      DecidedAmong(db, {MultiDefDeny, group}, port, direction, packet, GroupAcl(group, direction, 1012, Mcast, Allow));
    } else {
      forall a | a in RulesAmong(db, {MultiDefDeny, group})
        ensures !Hits(db, a, port, direction, packet)
      {
        NoHit(db, a, port, direction, packet);
      }
    }
  }

  lemma NoHit(db: Db, a: Acl, port: Name, direction: Direction, packet: Packet)
    ensures !Matches(db, a.match_, packet) ==> !Hits(db, a, port, direction, packet)
  {
  }

  /** What a policy group decides: packets from its ingress set and to its egress set by the first rule, other
      IPv4 by the second. */
  function PolicyVerdict(db: Db, policy: Name, direction: Direction, src: nat, dst: nat): Decision {
    match direction
    case FromLport => if Listed(db, Ingress(policy), src) then Decision(1010, Allow) else Decision(1009, AllowRelated)
    case ToLport => if Listed(db, Egress(policy), dst) then Decision(1010, Allow) else Decision(1009, Allow)
  }

  function PolicyTop(db: Db, policy: Name, direction: Direction, src: nat, dst: nat): Acl {
    var own := if direction.FromLport? then SrcIn(Ingress(policy)) else DstIn(Egress(policy));
    var listed := if direction.FromLport? then Listed(db, Ingress(policy), src) else Listed(db, Egress(policy), dst);
    if listed then GroupAcl(policy, direction, 1010, own, Allow)
    else GroupAcl(policy, direction, 1009, Ip4, if direction.FromLport? then AllowRelated else Allow)
  }

  lemma PolicyDecides(db: Db, K: nat, port: Name, direction: Direction, packet: Packet)
    requires Ruled(db) && Member(db, NetworkPolicy(K), port)
    ensures var rules := RulesAmong(db, {NetworkPolicy(K)});
            if packet.Ip4Packet? then
              Decides(db, rules, port, direction, packet, PolicyVerdict(db, NetworkPolicy(K), direction, packet.src, packet.dst))
            else forall a | a in rules :: !Hits(db, a, port, direction, packet)
  {
    var group := NetworkPolicy(K);
    var rules := RulesAmong(db, {group});
    RulesThere(group, direction);
    hide PolicyAcls;
    forall a | a in rules
      ensures Matches(db, a.match_, packet) ==> packet.Ip4Packet?
      ensures Matches(db, a.match_, packet) && a.direction == direction ==>
                var top := PolicyTop(db, group, direction, packet.src, packet.dst);
                a.priority < top.priority || (a.priority == top.priority && a.action == top.action)
    {
      RuleOwn(db, a);
      PolicyRules(group, a);
    }
    hide Ruled, Decides;
    if packet.Ip4Packet? {
      hide RulesAmong;
      DecidedAmong(db, {group}, port, direction, packet, PolicyTop(db, group, direction, packet.src, packet.dst));
    }
  }

  // ---- the groups of a port, and what they decide together

  lemma MembersHas(cfg: Config, n: nat, lo: nat, hi: nat, k: nat)
    requires Sized(cfg) && DisjointNets(cfg) && hi <= cfg.batch * n && k < cfg.batch * n
    requires forall u | 0 <= u < n :: Fits(cfg, u)
    ensures Lp(PortIp(cfg, k)) in Members(cfg, lo, hi) <==> lo <= k < hi
  {
    hide Fits, DisjointNets, PortIp;
    forall l: nat | l < hi && l != k
      ensures PortIp(cfg, l) != PortIp(cfg, k)
    {
      IterationBound(cfg, l, n);
      IterationBound(cfg, k, n);
      PortIpsDistinct(cfg, l, k);
    }
  }

  lemma ClassMember(cfg: Config, db: Db, group: Name, s: nat, K: nat, n: nat, k: nat)
    requires Sized(cfg) && DisjointNets(cfg) && s > 0 && ClassOk(cfg, db.groups, group, s, K, cfg.batch * n) && k < cfg.batch * n
    requires forall u | 0 <= u < n :: Fits(cfg, u)
    ensures Member(db, group, Lp(PortIp(cfg, k))) <==> K == k / s
  {
    hide Fits, DisjointNets, PortIp, Members, From;
    ClassOf(k, s, K);
    if group in db.groups {
      MembersHas(cfg, n, From(s, K), Min(From(s, K + 1), cfg.batch * n), k);
    }
  }

  /** The groups of the port with index k: both default-deny groups, one policy group and the multicast group
      of one name space, by the quotients of k. */
  function GroupsOf(cfg: Config, k: nat): set<Name>
    requires Sized(cfg)
  {
    {DefDeny, MultiDefDeny, NetworkPolicy(k / cfg.policySize), McastGroup(NameSpace(k / cfg.spaceSize))}
  }

  lemma MemberIff(cfg: Config, db: Db, n: nat, k: nat, group: Name)
    requires Sized(cfg) && DisjointNets(cfg) && RunInv(cfg, db, n, n) && k < cfg.batch * n && Made(group)
    requires forall u | 0 <= u < n :: Fits(cfg, u)
    ensures Member(db, group, Lp(PortIp(cfg, k))) <==> group in GroupsOf(cfg, k)
  {
    hide Fits, DisjointNets, PortIp, Members, ClassOk, Ruled, SetOk, Created, Absent;
    match group
    case NetworkPolicy(K) => ClassMember(cfg, db, group, cfg.policySize, K, n, k);
    case McastGroup(s) => ClassMember(cfg, db, group, cfg.spaceSize, s.index, n, k);
    case DefDeny => MembersHas(cfg, n, 0, cfg.batch * n, k);
    case MultiDefDeny => MembersHas(cfg, n, 0, cfg.batch * n, k);
    case _ =>
  }

  /** All rules of a run together: ARP and multicast pass, other IPv4 as the port's policy group decides, and
      everything else is dropped. */
  function Verdict(db: Db, policy: Name, direction: Direction, packet: Packet): Decision {
    match packet
    case ArpPacket => Decision(1001, Allow)
    case OtherPacket => Decision(1000, Drop)
    case Ip4Packet(src, dst, mcast, _) =>
      if mcast then Decision(1012, Allow) else PolicyVerdict(db, policy, direction, src, dst)
  }

  function VerdictRule(db: Db, policy: Name, space: Name, direction: Direction, packet: Packet): Acl {
    match packet
    case ArpPacket => GroupAcl(DefDeny, direction, 1001, Arp, Allow)
    case OtherPacket => GroupAcl(DefDeny, direction, 1000, Any, Drop)
    case Ip4Packet(src, dst, mcast, _) =>
      if mcast then GroupAcl(space, direction, 1012, Mcast, Allow) else PolicyTop(db, policy, direction, src, dst)
  }

  /** No rule of the four groups is stronger. */
  lemma Strongest(cfg: Config, db: Db, k: nat, direction: Direction, packet: Packet, a: Acl)
    requires Sized(cfg) && a.entity in GroupsOf(cfg, k) && a in RulesOf(a.entity)
    requires a.direction == direction && Matches(db, a.match_, packet)
    ensures var top := VerdictRule(db, NetworkPolicy(k / cfg.policySize), McastGroup(NameSpace(k / cfg.spaceSize)), direction, packet);
            a.priority < top.priority || (a.priority == top.priority && a.action == top.action)
  {
    hide DefDenyAcls, MultiDenyAcls, PolicyAcls, SpaceAcls;
    match a.entity
    case NetworkPolicy(_) => PolicyRules(a.entity, a);
    case McastGroup(_) => SpaceRules(a.entity, a);
    case _ => DenyRules(a);
  }

  /** After a whole run: what the rules of all its groups decide for every packet from or to every port. */
  lemma PortDecides(cfg: Config, db: Db, n: nat, k: nat, direction: Direction, packet: Packet)
    requires Sized(cfg) && DisjointNets(cfg) && RunInv(cfg, db, n, n) && k < cfg.batch * n
    requires forall u | 0 <= u < n :: Fits(cfg, u)
    ensures Decides(db, RunRules(db), Lp(PortIp(cfg, k)), direction, packet,
                    Verdict(db, NetworkPolicy(k / cfg.policySize), direction, packet))
  {
    hide Fits, DisjointNets, PortIp, Ruled, Grouped, Created, Absent, DefDenyAcls, MultiDenyAcls, PolicyAcls, SpaceAcls, Decides,
         RunInv, RulesOf, Matches;
    RunRuled(cfg, db, n);
    var port, policy, space := Lp(PortIp(cfg, k)), NetworkPolicy(k / cfg.policySize), McastGroup(NameSpace(k / cfg.spaceSize));
    var top := VerdictRule(db, policy, space, direction, packet);
    assert top.entity in GroupsOf(cfg, k);
    RulesThere(policy, direction);
    RulesThere(space, direction);
    MemberIff(cfg, db, n, k, top.entity);
    forall a | a in RunRules(db) && Member(db, a.entity, port) && a in RulesOf(a.entity) && a.direction == direction
               && Matches(db, a.match_, packet)
      ensures a.priority < top.priority || (a.priority == top.priority && a.action == top.action)
    {
      MemberIff(cfg, db, n, k, a.entity);
      Strongest(cfg, db, k, direction, packet, a);
    }
    hide GroupsOf;
    VerdictMatches(db, policy, space, direction, packet);
    DecidedBy(db, RunRules(db), port, direction, packet, top);
  }

  lemma RunRuled(cfg: Config, db: Db, n: nat)
    requires Sized(cfg) && RunInv(cfg, db, n, n)
    ensures Ruled(db)
  {
    hide Ruled, Grouped;
  }

  lemma VerdictMatches(db: Db, policy: Name, space: Name, direction: Direction, packet: Packet)
    requires policy.NetworkPolicy? && space.McastGroup? && space.of.NameSpace?
    ensures var top := VerdictRule(db, policy, space, direction, packet);
            && Matches(db, top.match_, packet) && top.direction == direction && top.ofGroup && top.port == top.entity
            && Made(top.entity) && top in RulesOf(top.entity)
            && Decision(top.priority, top.action) == Verdict(db, policy, direction, packet)
  {
    RulesThere(policy, direction);
    RulesThere(space, direction);
    hide DefDenyAcls, MultiDenyAcls, PolicyAcls, SpaceAcls;
  }
}
