/** The groups, address sets and ports a serial run of create_routed_lport leaves in the database. */
module RoutedPortsDb {
  import opened Common
  import opened NorthDb
  import opened Builders
  import opened BuildersDb
  import opened RoutedPorts
  import TopologyDb
  import TopologyRun

  // ---- what the groups should hold after n ports

  /** The first index of class K when indexes are grouped s by s. */
  function From(s: nat, K: nat): nat {
    K * s
  }

  function Members(cfg: Config, lo: nat, hi: nat): set<Name>
    requires |cfg.nets| > 0 && cfg.batch > 0
  {
    set k: nat {:trigger PortIp(cfg, k)} | lo <= k < hi :: Lp(PortIp(cfg, k))
  }

  /** The one address each port's iteration computes, for the ports from lo to hi. */
  function Addresses(cfg: Config, lo: nat, hi: nat): set<nat>
    requires |cfg.nets| > 0 && cfg.batch > 0
  {
    set k: nat {:trigger Iteration(cfg, k)} | lo <= k < hi :: WindowIp(cfg, Iteration(cfg, k))
  }

  ghost predicate ClassOk(cfg: Config, groups: map<Name, set<Name>>, name: Name, s: nat, K: nat, n: nat)
    requires |cfg.nets| > 0 && cfg.batch > 0
  {
    && (name in groups <==> From(s, K) < n)
    && (name in groups ==> groups[name] == Members(cfg, From(s, K), Min(From(s, K + 1), n)))
  }

  ghost predicate SetOk(cfg: Config, sets: map<Name, set<nat>>, name: Name, s: nat, K: nat, n: nat)
    requires |cfg.nets| > 0 && cfg.batch > 0
  {
    && (name in sets <==> From(s, K) < n)
    && (name in sets ==> sets[name] == Addresses(cfg, From(s, K), Min(From(s, K + 1), n)))
  }

  ghost predicate DenyOk(cfg: Config, groups: map<Name, set<Name>>, name: Name, n: nat)
    requires |cfg.nets| > 0 && cfg.batch > 0
  {
    (name in groups <==> n > 0) && (name in groups ==> groups[name] == Members(cfg, 0, n))
  }

  /** After n ports: group K of either kind exists once index K*size has been reached and holds exactly
      the ports of its index range; both default-deny groups hold every port. */
  ghost predicate Grouped(cfg: Config, groups: map<Name, set<Name>>, sets: map<Name, set<nat>>, n: nat)
    requires |cfg.nets| > 0 && cfg.batch > 0
  {
    && DenyOk(cfg, groups, DefDeny, n) && DenyOk(cfg, groups, MultiDefDeny, n)
    && (forall K: nat :: ClassOk(cfg, groups, NetworkPolicy(K), cfg.policySize, K, n))
    && (forall K: nat :: ClassOk(cfg, groups, McastGroup(NameSpace(K)), cfg.spaceSize, K, n))
    && (forall K: nat :: SetOk(cfg, sets, Ingress(NetworkPolicy(K)), cfg.policySize, K, n))
    && (forall K: nat :: SetOk(cfg, sets, Egress(NetworkPolicy(K)), cfg.policySize, K, n))
    && (forall K: nat :: SetOk(cfg, sets, NameSpace(K), cfg.spaceSize, K, n))
  }

  // ---- one command group

  function Put<T>(m: map<Name, set<T>>, k: Name, v: T): map<Name, set<T>> {
    m[k := (if k in m then m[k] else {}) + {v}]
  }

  /** The groups that a run makes. */
  predicate Made(name: Name) {
    name.DefDeny? || name.MultiDefDeny? || name.NetworkPolicy? || (name.McastGroup? && name.of.NameSpace?)
  }

  /** The rules a group is made with. */
  function RulesOf(group: Name): seq<Acl> {
    match group
    case DefDeny => DefDenyAcls()
    case MultiDefDeny => MultiDenyAcls()
    case NetworkPolicy(_) => PolicyAcls(group)
    case McastGroup(_) => SpaceAcls(group)
    case _ => []
  }

  /** Of the groups a run makes, those that exist have their rules, and there are no others. */
  ghost predicate Ruled(db: Db) {
    forall a: Acl | a.ofGroup && Made(a.entity) :: a in db.acls <==> a.entity in db.groups && a in RulesOf(a.entity)
  }

  lemma MemberApplied(db: Db, group: Name, port: Name, create: bool)
    requires port in db.lsps && (create <==> group !in db.groups)
    ensures ApplyAll(db, MemberCmds(group, port, create)) == Success(db.(groups := Put(db.groups, group, port)))
  {
    var d := db.(groups := Put(db.groups, group, port));
    var last := if create then PgAdd(group, port) else PgAddPort(group, port);
    assert {} + {port} == {port};
    assert Apply(db, GetPortUuid(port)) == Success(db) && Apply(db, last) == Success(d);
    hide ApplyAll, Apply, Put;
    var first := if create then [] else [GetPortUuid(port)];
    TopologyDb.NoneApplied(db);
    TopologyDb.Step(db, [], GetPortUuid(port));
    assert [] + [GetPortUuid(port)] == [GetPortUuid(port)];
    TopologyDb.Step(db, first, last);
    assert MemberCmds(group, port, create) == first + [last];
  }

  lemma AddressApplied(db: Db, set_: Name, ip: nat, create: bool)
    requires create <==> set_ !in db.addressSets
    ensures ApplyAll(db, AddressCmds(set_, ip, create)) == Success(db.(addressSets := Put(db.addressSets, set_, ip)))
  {
    hide ApplyAll;
    var d := db.(addressSets := Put(db.addressSets, set_, ip));
    if create {
      assert {} + {ip} == {ip};
      TopologyDb.Steps([AsCreate(set_, ip)], [db, d]);
    } else {
      TopologyDb.Steps([AsAdd(set_, ip)], [db, d]);
    }
  }

  /** Rules for one group, no two alike. */
  ghost predicate Rules(acls: seq<Acl>, group: Name) {
    && (forall i | 0 <= i < |acls| :: acls[i].ofGroup && acls[i].entity == group)
    && (forall i, j | 0 <= i < j < |acls| :: !SameAcl(acls[i], acls[j]))
  }

  /** The rules after a port has joined a group, which is made with its rules if need be. */
  function AclsAfter(db: Db, group: Name): set<Acl> {
    if group in db.groups then db.acls else db.acls + ToSet(RulesOf(group))
  }

  /** The rules of a group that has just been created. */
  lemma FreshAclsApplied(before: Db, db: Db, group: Name)
    requires Made(group) && Ruled(before) && db.acls == before.acls && group in db.groups
    ensures ApplyAll(db, if group !in before.groups then AclList(RulesOf(group)) else [])
            == Success(db.(acls := AclsAfter(before, group)))
  {
    hide ApplyAll;
    if group !in before.groups {
      RulesShape(group);
      forall a, j | a in db.acls && 0 <= j < |RulesOf(group)|
        ensures !SameAcl(a, RulesOf(group)[j])
      {
        assert RulesOf(group)[j].entity == group;
      }
      hide RulesOf;
      AclsApplied(db, RulesOf(group));
    } else {
      TopologyRun.NothingApplied(db);
    }
  }

  lemma RulesShape(group: Name)
    requires Made(group)
    ensures Rules(RulesOf(group), group)
  {
  }

  /** The rules there are besides are those of groups that a run makes. */
  ghost predicate OwnRules(a: Db, b: Db) {
    forall r | r in b.acls :: r in a.acls || (r.ofGroup && Made(r.entity))
  }

  lemma OwnRulesTwice(a: Db, b: Db, c: Db)
    requires OwnRules(a, b) && OwnRules(b, c)
    ensures OwnRules(a, c)
  {
    hide Made;
  }

  /** Making a group with its rules keeps that every group has just its own. */
  lemma StillRuled(before: Db, d: Db, group: Name, port: Name)
    requires Made(group) && Ruled(before) && d.groups == Put(before.groups, group, port) && d.acls == AclsAfter(before, group)
    ensures Ruled(d)
    ensures OwnRules(before, d)
  {
    RulesShape(group);
    hide RulesOf, Made;
    forall a | a in RulesOf(group)
      ensures a.ofGroup && a.entity == group
    {
      var i :| 0 <= i < |RulesOf(group)| && RulesOf(group)[i] == a;
    }
  }

  /** The database after a port has joined a group ... */
  function WithMember(db: Db, group: Name, port: Name): Db {
    db.(groups := Put(db.groups, group, port), acls := AclsAfter(db, group))
  }

  /** ... and its address the sets of a policy, or that of a name space. */
  function WithPolicy(db: Db, group: Name, port: Name, ip: nat): Db {
    WithMember(db, group, port).(addressSets := Put(Put(db.addressSets, Ingress(group), ip), Egress(group), ip))
  }

  function WithSpace(db: Db, space: Name, port: Name, ip: nat): Db {
    WithMember(db, McastGroup(space), port).(addressSets := Put(db.addressSets, space, ip))
  }

  lemma DenyApplied(db: Db, group: Name, acls: seq<Acl>, index: nat, port: Name)
    requires Made(group) && acls == RulesOf(group) && Ruled(db) && port in db.lsps && (index == 0 <==> group !in db.groups)
    ensures var d := WithMember(db, group, port);
            ApplyAll(db, DenyCmds(group, acls, index, port)) == Success(d) && Ruled(d) && OwnRules(db, d)
  {
    hide ApplyAll, MemberCmds, RulesOf, Made;
    var d1 := db.(groups := Put(db.groups, group, port));
    MemberApplied(db, group, port, index == 0);
    FreshAclsApplied(db, d1, group);
    StillRuled(db, WithMember(db, group, port), group, port);
    ApplyConcat(db, MemberCmds(group, port, index == 0), if index == 0 then AclList(acls) else []);
  }

  lemma PolicyApplied(db: Db, group: Name, port: Name, ip: nat, create: bool)
    requires group.NetworkPolicy? && Ruled(db) && port in db.lsps && (create <==> group !in db.groups)
    requires (create <==> Ingress(group) !in db.addressSets) && (create <==> Egress(group) !in db.addressSets)
    ensures var d := WithPolicy(db, group, port, ip);
            ApplyAll(db, PolicyCmds(group, port, ip, create)) == Success(d) && Ruled(d) && OwnRules(db, d)
  {
    hide ApplyAll, MemberCmds, AddressCmds, PolicyAcls;
    var d1 := db.(groups := Put(db.groups, group, port));
    MemberApplied(db, group, port, create);
    var d2 := d1.(addressSets := Put(d1.addressSets, Ingress(group), ip));
    AddressApplied(d1, Ingress(group), ip, create);
    var d3 := d2.(addressSets := Put(d2.addressSets, Egress(group), ip));
    AddressApplied(d2, Egress(group), ip, create);
    FreshAclsApplied(db, d3, group);
    StillRuled(db, WithPolicy(db, group, port, ip), group, port);
    var m, i, e := MemberCmds(group, port, create), AddressCmds(Ingress(group), ip, create), AddressCmds(Egress(group), ip, create);
    ApplyConcat(d1, i, e);
    ApplyConcat(db, m, i + e);
    ApplyConcat(db, m + (i + e), if create then AclList(PolicyAcls(group)) else []);
  }

  lemma SpaceApplied(db: Db, space: Name, port: Name, ip: nat, create: bool)
    requires space.NameSpace? && Ruled(db) && port in db.lsps && (create <==> McastGroup(space) !in db.groups)
    requires create <==> space !in db.addressSets
    ensures var d := WithSpace(db, space, port, ip);
            ApplyAll(db, SpaceCmds(space, port, ip, create)) == Success(d) && Ruled(d) && OwnRules(db, d)
  {
    hide ApplyAll, MemberCmds, AddressCmds, SpaceAcls;
    var group := McastGroup(space);
    var d1 := db.(addressSets := Put(db.addressSets, space, ip));
    AddressApplied(db, space, ip, create);
    var d2 := d1.(groups := Put(d1.groups, group, port));
    MemberApplied(d1, group, port, create);
    FreshAclsApplied(db, d2, group);
    StillRuled(db, WithSpace(db, space, port, ip), group, port);
    var a, m := AddressCmds(space, ip, create), MemberCmds(group, port, create);
    ApplyConcat(db, a, m);
    ApplyConcat(db, a + m, if create then AclList(SpaceAcls(group)) else []);
  }

  // ---- the classes, as one more port arrives

  /** Index n is in class n / s, at its start exactly when n % s is 0; earlier classes are complete
      and later ones empty. */
  lemma ClassOf(n: nat, s: nat, K: nat)
    requires s > 0
    ensures K == ClassNo(n, s) ==> From(s, K) <= n < From(s, K + 1) && (Opens(n, s) <==> From(s, K) == n)
    ensures K < ClassNo(n, s) ==> From(s, K) < n && From(s, K + 1) <= n
    ensures K > ClassNo(n, s) ==> From(s, K) > n
  {
    var q, r := n / s, n % s;
    assert n == s * q + r;
    assert From(s, K + 1) == From(s, K) + s;
    assert s * (q - K) == s * q - From(s, K);
    FactorGrows(s, q - K);
    if K == q {
      assert From(s, K) == s * q;
    }
  }

  lemma MembersStep(cfg: Config, lo: nat, n: nat)
    requires |cfg.nets| > 0 && cfg.batch > 0 && lo <= n
    ensures Members(cfg, lo, n + 1) == Members(cfg, lo, n) + {Lp(PortIp(cfg, n))} && Members(cfg, n, n) == {}
    ensures Addresses(cfg, lo, n + 1) == Addresses(cfg, lo, n) + {WindowIp(cfg, Iteration(cfg, n))} && Addresses(cfg, n, n) == {}
  {
  }

  lemma ClassPut(cfg: Config, groups: map<Name, set<Name>>, name: Name, s: nat, K: nat, n: nat)
    requires |cfg.nets| > 0 && cfg.batch > 0 && s > 0 && ClassOk(cfg, groups, name, s, K, n)
    ensures K == ClassNo(n, s) ==> ClassOk(cfg, Put(groups, name, Lp(PortIp(cfg, n))), name, s, K, n + 1)
    ensures K != ClassNo(n, s) ==> ClassOk(cfg, groups, name, s, K, n + 1)
    ensures K == ClassNo(n, s) ==> (Opens(n, s) <==> name !in groups)
  {
    hide From, Members, PortIp, ClassNo, Opens;
    ClassOf(n, s, K);
    if K < ClassNo(n, s) {
    } else if K == ClassNo(n, s) {
      MembersStep(cfg, From(s, K), n);
    } else {
      assert From(s, K) > n;
    }
  }

  lemma SetPut(cfg: Config, sets: map<Name, set<nat>>, name: Name, s: nat, K: nat, n: nat)
    requires |cfg.nets| > 0 && cfg.batch > 0 && s > 0 && SetOk(cfg, sets, name, s, K, n)
    ensures K == ClassNo(n, s) ==> SetOk(cfg, Put(sets, name, WindowIp(cfg, Iteration(cfg, n))), name, s, K, n + 1)
    ensures K != ClassNo(n, s) ==> SetOk(cfg, sets, name, s, K, n + 1)
    ensures K == ClassNo(n, s) ==> (Opens(n, s) <==> name !in sets)
  {
    hide From, Addresses, WindowIp, ClassNo, Opens;
    ClassOf(n, s, K);
    if K < ClassNo(n, s) {
    } else if K == ClassNo(n, s) {
      MembersStep(cfg, From(s, K), n);
    } else {
      assert From(s, K) > n;
    }
  }

  lemma DenyPut(cfg: Config, groups: map<Name, set<Name>>, name: Name, n: nat)
    requires |cfg.nets| > 0 && cfg.batch > 0 && DenyOk(cfg, groups, name, n)
    ensures DenyOk(cfg, Put(groups, name, Lp(PortIp(cfg, n))), name, n + 1) && (n == 0 <==> name !in groups)
  {
    MembersStep(cfg, 0, n);
  }

  /** The groups and sets after the port with index n. */
  function GroupsAfter(cfg: Config, groups: map<Name, set<Name>>, n: nat): map<Name, set<Name>>
    requires |cfg.nets| > 0 && cfg.batch > 0 && cfg.policySize > 0 && cfg.spaceSize > 0
  {
    var p := Lp(PortIp(cfg, n));
    Put(Put(Put(Put(groups, DefDeny, p), MultiDefDeny, p), NetworkPolicy(ClassNo(n, cfg.policySize)), p),
        McastGroup(NameSpace(ClassNo(n, cfg.spaceSize))), p)
  }

  function SetsAfter(cfg: Config, sets: map<Name, set<nat>>, n: nat): map<Name, set<nat>>
    requires |cfg.nets| > 0 && cfg.batch > 0 && cfg.policySize > 0 && cfg.spaceSize > 0
  {
    var a, g := WindowIp(cfg, Iteration(cfg, n)), NetworkPolicy(ClassNo(n, cfg.policySize));
    Put(Put(Put(sets, Ingress(g), a), Egress(g), a), NameSpace(ClassNo(n, cfg.spaceSize)), a)
  }

  ghost predicate Sized(cfg: Config) {
    |cfg.nets| > 0 && cfg.batch > 0 && cfg.policySize > 0 && cfg.spaceSize > 0
  }

  lemma ClassKept(cfg: Config, groups: map<Name, set<Name>>, n: nat, K: nat)
    requires Sized(cfg)
    requires ClassOk(cfg, groups, NetworkPolicy(K), cfg.policySize, K, n)
    requires ClassOk(cfg, groups, McastGroup(NameSpace(K)), cfg.spaceSize, K, n)
    ensures ClassOk(cfg, GroupsAfter(cfg, groups, n), NetworkPolicy(K), cfg.policySize, K, n + 1)
    ensures ClassOk(cfg, GroupsAfter(cfg, groups, n), McastGroup(NameSpace(K)), cfg.spaceSize, K, n + 1)
  {
    hide Members, From, PortIp;
    ClassPut(cfg, groups, NetworkPolicy(K), cfg.policySize, K, n);
    ClassPut(cfg, groups, McastGroup(NameSpace(K)), cfg.spaceSize, K, n);
  }

  lemma SetsKept(cfg: Config, sets: map<Name, set<nat>>, n: nat, K: nat)
    requires Sized(cfg)
    requires SetOk(cfg, sets, Ingress(NetworkPolicy(K)), cfg.policySize, K, n)
    requires SetOk(cfg, sets, Egress(NetworkPolicy(K)), cfg.policySize, K, n)
    requires SetOk(cfg, sets, NameSpace(K), cfg.spaceSize, K, n)
    ensures var s := SetsAfter(cfg, sets, n);
            && SetOk(cfg, s, Ingress(NetworkPolicy(K)), cfg.policySize, K, n + 1)
            && SetOk(cfg, s, Egress(NetworkPolicy(K)), cfg.policySize, K, n + 1)
            && SetOk(cfg, s, NameSpace(K), cfg.spaceSize, K, n + 1)
  {
    hide Addresses, From, WindowIp, Iteration;
    SetPut(cfg, sets, Ingress(NetworkPolicy(K)), cfg.policySize, K, n);
    SetPut(cfg, sets, Egress(NetworkPolicy(K)), cfg.policySize, K, n);
    SetPut(cfg, sets, NameSpace(K), cfg.spaceSize, K, n);
  }

  lemma DeniesKept(cfg: Config, groups: map<Name, set<Name>>, n: nat)
    requires Sized(cfg) && DenyOk(cfg, groups, DefDeny, n) && DenyOk(cfg, groups, MultiDefDeny, n)
    ensures DenyOk(cfg, GroupsAfter(cfg, groups, n), DefDeny, n + 1)
    ensures DenyOk(cfg, GroupsAfter(cfg, groups, n), MultiDefDeny, n + 1)
  {
    hide Members, PortIp;
    DenyPut(cfg, groups, DefDeny, n);
    DenyPut(cfg, groups, MultiDefDeny, n);
  }

  lemma GroupsKept(cfg: Config, groups: map<Name, set<Name>>, sets: map<Name, set<nat>>, n: nat)
    requires Sized(cfg) && Grouped(cfg, groups, sets, n)
    ensures Grouped(cfg, GroupsAfter(cfg, groups, n), SetsAfter(cfg, sets, n), n + 1)
  {
    hide GroupsAfter, SetsAfter, ClassOk, SetOk, DenyOk;
    DeniesKept(cfg, groups, n);
    forall K: nat
      ensures ClassOk(cfg, GroupsAfter(cfg, groups, n), NetworkPolicy(K), cfg.policySize, K, n + 1)
      ensures ClassOk(cfg, GroupsAfter(cfg, groups, n), McastGroup(NameSpace(K)), cfg.spaceSize, K, n + 1)
    {
      ClassKept(cfg, groups, n, K);
    }
    forall K: nat
      ensures SetOk(cfg, SetsAfter(cfg, sets, n), Ingress(NetworkPolicy(K)), cfg.policySize, K, n + 1)
      ensures SetOk(cfg, SetsAfter(cfg, sets, n), Egress(NetworkPolicy(K)), cfg.policySize, K, n + 1)
      ensures SetOk(cfg, SetsAfter(cfg, sets, n), NameSpace(K), cfg.spaceSize, K, n + 1)
    {
      SetsKept(cfg, sets, n, K);
    }
  }

  /** The create flags of index n say exactly which groups and sets do not exist yet. */
  lemma CreateFlags(cfg: Config, groups: map<Name, set<Name>>, sets: map<Name, set<nat>>, n: nat)
    requires Sized(cfg) && Grouped(cfg, groups, sets, n)
    ensures (n == 0 <==> DefDeny !in groups) && (n == 0 <==> MultiDefDeny !in groups)
    ensures var g := NetworkPolicy(ClassNo(n, cfg.policySize));
            && (Opens(n, cfg.policySize) <==> g !in groups) && (Opens(n, cfg.policySize) <==> Ingress(g) !in sets)
            && (Opens(n, cfg.policySize) <==> Egress(g) !in sets)
    ensures var sp := NameSpace(ClassNo(n, cfg.spaceSize));
            (Opens(n, cfg.spaceSize) <==> McastGroup(sp) !in groups) && (Opens(n, cfg.spaceSize) <==> sp !in sets)
  {
    hide ClassOk, SetOk, DenyOk, ClassNo, Opens;
    DenyPut(cfg, groups, DefDeny, n);
    DenyPut(cfg, groups, MultiDefDeny, n);
    var K, L := ClassNo(n, cfg.policySize), ClassNo(n, cfg.spaceSize);
    ClassPut(cfg, groups, NetworkPolicy(K), cfg.policySize, K, n);
    ClassPut(cfg, groups, McastGroup(NameSpace(L)), cfg.spaceSize, L, n);
    SetPut(cfg, sets, Ingress(NetworkPolicy(K)), cfg.policySize, K, n);
    SetPut(cfg, sets, Egress(NetworkPolicy(K)), cfg.policySize, K, n);
    SetPut(cfg, sets, NameSpace(L), cfg.spaceSize, L, n);
  }

  /** The flags of index n fit the database before each of the four steps ... */
  lemma FlagsFit(cfg: Config, db: Db, n: nat, port: Name, ip: nat)
    requires Sized(cfg) && Grouped(cfg, db.groups, db.addressSets, n)
    ensures var g, sp := NetworkPolicy(ClassNo(n, cfg.policySize)), NameSpace(ClassNo(n, cfg.spaceSize));
            var d1 := WithMember(db, DefDeny, port);
            var d2 := WithMember(d1, MultiDefDeny, port);
            var d3 := WithPolicy(d2, g, port, ip);
            && (n == 0 <==> DefDeny !in db.groups) && (n == 0 <==> MultiDefDeny !in d1.groups)
            && (Opens(n, cfg.policySize) <==> g !in d2.groups) && (Opens(n, cfg.policySize) <==> Ingress(g) !in d2.addressSets)
            && (Opens(n, cfg.policySize) <==> Egress(g) !in d2.addressSets)
            && (Opens(n, cfg.spaceSize) <==> McastGroup(sp) !in d3.groups)
            && (Opens(n, cfg.spaceSize) <==> sp !in d3.addressSets)
            && d1.lsps == d2.lsps == d3.lsps == db.lsps
  {
    hide Grouped, AclsAfter, Opens, ClassNo;
    CreateFlags(cfg, db.groups, db.addressSets, n);
  }

  /** ... which together add the port to its four groups, and its address to its three sets. */
  lemma StepsTogether(cfg: Config, db: Db, n: nat)
    requires Sized(cfg)
    ensures var port, ip := Lp(PortIp(cfg, n)), WindowIp(cfg, Iteration(cfg, n));
            var g, sp := NetworkPolicy(ClassNo(n, cfg.policySize)), NameSpace(ClassNo(n, cfg.spaceSize));
            var d := WithSpace(WithPolicy(WithMember(WithMember(db, DefDeny, port), MultiDefDeny, port), g, port, ip), sp, port, ip);
            && d == db.(groups := d.groups, addressSets := d.addressSets, acls := d.acls)
            && d.groups == GroupsAfter(cfg, db.groups, n) && d.addressSets == SetsAfter(cfg, db.addressSets, n)
  {
    hide AclsAfter, Put, PortIp, WindowIp, Iteration, ClassNo;
  }

  /** The port joins both default-deny groups ... */
  lemma DeniesApplied(db: Db, index: nat, port: Name) returns (d: Db)
    requires Ruled(db) && port in db.lsps && (index == 0 <==> DefDeny !in db.groups)
    requires index == 0 <==> MultiDefDeny !in WithMember(db, DefDeny, port).groups
    ensures d == WithMember(WithMember(db, DefDeny, port), MultiDefDeny, port) && Ruled(d) && OwnRules(db, d)
    ensures ApplyAll(db, DenyCmds(DefDeny, DefDenyAcls(), index, port) + DenyCmds(MultiDefDeny, MultiDenyAcls(), index, port))
            == Success(d)
  {
    hide ApplyAll, DenyCmds, Ruled, OwnRules, DefDenyAcls, MultiDenyAcls;
    var d1 := WithMember(db, DefDeny, port);
    DenyApplied(db, DefDeny, DefDenyAcls(), index, port);
    DenyApplied(d1, MultiDefDeny, MultiDenyAcls(), index, port);
    d := WithMember(d1, MultiDefDeny, port);
    ApplyConcat(db, DenyCmds(DefDeny, DefDenyAcls(), index, port), DenyCmds(MultiDefDeny, MultiDenyAcls(), index, port));
    OwnRulesTwice(db, d1, d);
  }

  /** ... and then the group of a policy and that of a name space. */
  lemma OwnGroupsApplied(db: Db, policy: Name, space: Name, port: Name, ip: nat, openPolicy: bool, openSpace: bool) returns (d: Db)
    requires policy.NetworkPolicy? && space.NameSpace? && Ruled(db) && port in db.lsps && (openPolicy <==> policy !in db.groups)
    requires (openPolicy <==> Ingress(policy) !in db.addressSets) && (openPolicy <==> Egress(policy) !in db.addressSets)
    requires var d1 := WithPolicy(db, policy, port, ip);
             (openSpace <==> McastGroup(space) !in d1.groups) && (openSpace <==> space !in d1.addressSets)
    ensures d == WithSpace(WithPolicy(db, policy, port, ip), space, port, ip) && Ruled(d) && OwnRules(db, d)
    ensures ApplyAll(db, PolicyCmds(policy, port, ip, openPolicy) + SpaceCmds(space, port, ip, openSpace)) == Success(d)
  {
    hide ApplyAll, PolicyCmds, SpaceCmds, Ruled, OwnRules;
    var d1 := WithPolicy(db, policy, port, ip);
    PolicyApplied(db, policy, port, ip, openPolicy);
    SpaceApplied(d1, space, port, ip, openSpace);
    d := WithSpace(d1, space, port, ip);
    ApplyConcat(db, PolicyCmds(policy, port, ip, openPolicy), SpaceCmds(space, port, ip, openSpace));
    OwnRulesTwice(db, d1, d);
  }

  lemma InTwoHalves(db: Db, d: Db, c1: seq<Cmd>, c2: seq<Cmd>, c3: seq<Cmd>, c4: seq<Cmd>)
    requires ApplyAll(db, c1 + c2).Success? && ApplyAll(ApplyAll(db, c1 + c2).value, c3 + c4) == Success(d)
    ensures ApplyAll(db, c1 + c2 + c3 + c4) == Success(d)
  {
    hide ApplyAll;
    ApplyConcat(db, c1 + c2, c3 + c4);
    Associates(c1 + c2, c3, c4);
  }

  /** The commands for the port with index n are all accepted. */
  lemma PortGrouped(cfg: Config, db: Db, n: nat) returns (d: Db)
    requires Sized(cfg) && Grouped(cfg, db.groups, db.addressSets, n) && Ruled(db) && Lp(PortIp(cfg, n)) in db.lsps
    ensures ApplyAll(db, GroupCmds(Lp(PortIp(cfg, n)), n, WindowIp(cfg, Iteration(cfg, n)), cfg.policySize, cfg.spaceSize))
            == Success(d)
    ensures Grouped(cfg, d.groups, d.addressSets, n + 1) && Ruled(d)
    ensures d == db.(groups := d.groups, addressSets := d.addressSets, acls := d.acls) && OwnRules(db, d)
  {
    hide ApplyAll, DenyCmds, PolicyCmds, SpaceCmds, Grouped, Ruled, PortIp, WindowIp, Iteration, OwnRules, ClassNo, Opens,
         DefDenyAcls, MultiDenyAcls, WithMember, WithPolicy, WithSpace, GroupsAfter, SetsAfter;
    var port, ip := Lp(PortIp(cfg, n)), WindowIp(cfg, Iteration(cfg, n));
    var g, sp := NetworkPolicy(ClassNo(n, cfg.policySize)), NameSpace(ClassNo(n, cfg.spaceSize));
    FlagsFit(cfg, db, n, port, ip);
    var d2 := DeniesApplied(db, n, port);
    d := OwnGroupsApplied(d2, g, sp, port, ip, Opens(n, cfg.policySize), Opens(n, cfg.spaceSize));
    InTwoHalves(db, d, DenyCmds(DefDeny, DefDenyAcls(), n, port), DenyCmds(MultiDefDeny, MultiDenyAcls(), n, port),
                PolicyCmds(g, port, ip, Opens(n, cfg.policySize)), SpaceCmds(sp, port, ip, Opens(n, cfg.spaceSize)));
    OwnRulesTwice(db, d2, d);
    StepsTogether(cfg, db, n);
    GroupsKept(cfg, db.groups, db.addressSets, n);
  }

  // ---- one iteration

  /** Nothing but new ports, groups, sets and rules of the run's groups, and no new port of type router or
      localnet. */
  ghost predicate Beside(a: Db, b: Db) {
    && OwnRules(a, b)
    && b == a.(lsps := b.lsps, groups := b.groups, addressSets := b.addressSets, acls := b.acls)
    && (forall p | p in a.lsps :: p in b.lsps && b.lsps[p] == a.lsps[p])
    && (forall p | p in b.lsps :: p in a.lsps || b.lsps[p].kind.Vif?)
  }

  lemma GroupsBeside(a: Db, b: Db)
    requires b == a.(groups := b.groups, addressSets := b.addressSets, acls := b.acls) && OwnRules(a, b)
    ensures Beside(a, b)
  {
    hide OwnRules;
  }

  lemma BesideTwice(a: Db, b: Db, c: Db)
    requires Beside(a, b) && Beside(b, c)
    ensures Beside(a, c)
  {
    hide Made;
  }

  lemma {:induction false} WindowLoop(cfg: Config, db: Db, t: nat, i: nat) returns (d: Db)
    requires |cfg.nets| > 0 && i <= cfg.batch && SwitchOf(cfg, t).name in db.switches
    requires forall ip: nat | WindowIp(cfg, t) + i <= ip < WindowIp(cfg, t) + cfg.batch :: Lp(ip) !in db.lsps
    ensures ApplyAll(db, Flatten(WindowItems(cfg, t)[i..])) == Success(d) && d == db.(lsps := d.lsps)
    ensures Beside(db, d)
    ensures forall ip: nat ::
              Lp(ip) in d.lsps <==> Lp(ip) in db.lsps || WindowIp(cfg, t) + i <= ip < WindowIp(cfg, t) + cfg.batch
    ensures forall ip: nat | WindowIp(cfg, t) + i <= ip < WindowIp(cfg, t) + cfg.batch ::
              d.lsps[Lp(ip)] == TopologyDb.VifPort(SwitchOf(cfg, t).name, ip, cfg.security)
    decreases cfg.batch - i
  {
    hide ApplyAll, PortCmds, WindowIp;
    var items := WindowItems(cfg, t);
    if i == cfg.batch {
      d := db;
      TopologyRun.NoItemLeft(db, items);
    } else {
      var ip := WindowIp(cfg, t) + i;
      var next := TopologyDb.WithPort(db, SwitchOf(cfg, t).name, ip, cfg.security);
      TopologyDb.PortApplied(db, SwitchOf(cfg, t).name, ip, cfg.security);
      assert items[i] == PortCmds(SwitchOf(cfg, t).name, ip, cfg.security);
      d := WindowLoop(cfg, next, t, i + 1);
      TopologyRun.FirstItem(db, items, i, next, d);
    }
  }

  lemma {:induction false} GroupLoop(cfg: Config, db: Db, t: nat, i: nat) returns (d: Db)
    requires Sized(cfg) && i <= cfg.batch && Ruled(db)
    requires Grouped(cfg, db.groups, db.addressSets, cfg.batch * t + i)
    requires forall ip: nat | WindowIp(cfg, t) <= ip < WindowIp(cfg, t) + cfg.batch :: Lp(ip) in db.lsps
    ensures ApplyAll(db, Flatten(GroupItems(cfg, t)[i..])) == Success(d) && Ruled(d)
    ensures Grouped(cfg, d.groups, d.addressSets, cfg.batch * t + cfg.batch)
    ensures d == db.(groups := d.groups, addressSets := d.addressSets, acls := d.acls) && OwnRules(db, d)
    decreases cfg.batch - i
  {
    hide ApplyAll, GroupCmds, WindowIp, Grouped, Ruled, Iteration, Slot, OwnRules;
    var items := GroupItems(cfg, t);
    if i == cfg.batch {
      d := db;
      TopologyRun.NoItemLeft(db, items);
      BesideItself(db);
    } else {
      IndexOf(cfg, t, i);
      var next := PortGrouped(cfg, db, cfg.batch * t + i);
      d := GroupLoop(cfg, next, t, i + 1);
      TopologyRun.FirstItem(db, items, i, next, d);
      OwnRulesTwice(db, next, d);
    }
  }

  lemma WaitApplied(cfg: Config, db: Db, t: nat)
    requires |cfg.nets| > 0
    ensures ApplyAll(db, WaitPart(cfg, t)).Success?
            <==> !cfg.bind.waitUp || cfg.bind.waitSync == "ping"
                 || (cfg.bind.waitSync in ["none", "sb", "hv"]
                     && forall ip: nat | WindowIp(cfg, t) <= ip < WindowIp(cfg, t) + cfg.batch :: Lp(ip) in db.lsps)
    ensures ApplyAll(db, WaitPart(cfg, t)).Success? ==> ApplyAll(db, WaitPart(cfg, t)) == Success(db)
  {
    hide WindowIp, BindArgs.Waits;
    var names := WindowNames(cfg, t);
    TopologyDb.WaitsApplied(db, cfg.bind, names);
    forall ip: nat | WindowIp(cfg, t) <= ip < WindowIp(cfg, t) + cfg.batch
      ensures Lp(ip) in names
    {
      assert names[ip - WindowIp(cfg, t)] == Lp(ip);
    }
  }

  // ---- the whole run

  /** After t of n iterations: the ports of those t are there, those of the others are not. */
  ghost predicate RunInv(cfg: Config, db: Db, t: nat, n: nat)
    requires Sized(cfg)
  {
    && Ruled(db) && Grouped(cfg, db.groups, db.addressSets, cfg.batch * t)
    && (forall j | 0 <= j < |cfg.nets| :: cfg.nets[j].name in db.switches)
    && (forall u | 0 <= u < t :: Created(cfg, db, u)) && (forall u: nat | t <= u < n :: Absent(cfg, db, u))
  }

  ghost predicate Created(cfg: Config, db: Db, u: nat)
    requires |cfg.nets| > 0
  {
    forall ip: nat | WindowIp(cfg, u) <= ip < WindowIp(cfg, u) + cfg.batch ::
      Lp(ip) in db.lsps && db.lsps[Lp(ip)] == TopologyDb.VifPort(SwitchOf(cfg, u).name, ip, cfg.security)
  }

  ghost predicate Absent(cfg: Config, db: Db, u: nat)
    requires |cfg.nets| > 0
  {
    forall ip: nat | WindowIp(cfg, u) <= ip < WindowIp(cfg, u) + cfg.batch :: Lp(ip) !in db.lsps
  }

  /** The ports of one iteration are not those of another. */
  lemma AbsentKept(cfg: Config, a: Db, b: Db, t: nat, u: nat)
    requires |cfg.nets| > 0 && DisjointNets(cfg) && Fits(cfg, t) && Fits(cfg, u) && t != u && Absent(cfg, a, u)
    requires forall ip: nat ::
               Lp(ip) in b.lsps <==> Lp(ip) in a.lsps || WindowIp(cfg, t) <= ip < WindowIp(cfg, t) + cfg.batch
    ensures Absent(cfg, b, u)
  {
    hide WindowIp, Fits, DisjointNets;
    forall ip: nat | WindowIp(cfg, u) <= ip < WindowIp(cfg, u) + cfg.batch
      ensures Lp(ip) !in b.lsps
    {
      if WindowIp(cfg, t) <= ip < WindowIp(cfg, t) + cfg.batch {
        PortAddressesDistinct(cfg, t, ip - WindowIp(cfg, t), u, ip - WindowIp(cfg, u));
      }
    }
  }

  /** The next iteration: refused exactly for a word that ovn-nbctl does not know to wait for, and then
      only after its groups are there. */
  lemma IterationGrouped(cfg: Config, db: Db, t: nat, n: nat) returns (d: Db)
    requires Sized(cfg) && cfg.createAcls && DisjointNets(cfg) && t < n && RunInv(cfg, db, t, n)
    requires forall u | 0 <= u < n :: Fits(cfg, u)
    ensures ApplyAll(db, IterationCmds(cfg, t)).Success? <==> cfg.bind.Accepted()
    ensures cfg.bind.Accepted() ==> ApplyAll(db, IterationCmds(cfg, t)) == Success(d)
    ensures RunInv(cfg, d, t + 1, n) && Beside(db, d)
  {
    hide ApplyAll, WindowIp, Grouped, Ruled, WindowItems, GroupItems, WaitPart, Fits, DisjointNets, Flatten;
    assert Absent(cfg, db, t);
    var d1 := WindowLoop(cfg, db, t, 0);
    SameAcls(db, d1);
    d := GroupLoop(cfg, d1, t, 0);
    GroupsBeside(d1, d);
    BesideTwice(db, d1, d);
    WaitApplied(cfg, d, t);
    var w, g := WindowItems(cfg, t), GroupItems(cfg, t);
    assert w[0..] == w && g[0..] == g;
    ApplyConcat(d1, Flatten(g), WaitPart(cfg, t));
    ApplyConcat(db, Flatten(w), Flatten(g) + WaitPart(cfg, t));
    assert cfg.batch * (t + 1) == cfg.batch * t + cfg.batch;
    forall u | 0 <= u < t + 1
      ensures Created(cfg, d, u)
    {
      assert u < t ==> Created(cfg, db, u);
    }
    forall u: nat | t + 1 <= u < n
      ensures Absent(cfg, d, u)
    {
      assert Absent(cfg, db, u) && Fits(cfg, t) && Fits(cfg, u);
      AbsentKept(cfg, db, d1, t, u);
    }
  }

  lemma SameAcls(a: Db, b: Db)
    requires b == a.(lsps := b.lsps) && Ruled(a)
    ensures Ruled(b)
  {
  }

  /** A whole serial run: the only thing that is ever refused is waiting for a word that ovn-nbctl does not
      know; no group or set is created twice or extended before it exists, and the groups and sets end up
      as Grouped says. */
  lemma {:induction false} GroupingRun(cfg: Config, db: Db, n: nat, t: nat) returns (d: Db)
    requires Sized(cfg) && cfg.createAcls && DisjointNets(cfg) && t <= n && RunInv(cfg, db, 0, n)
    requires forall u | 0 <= u < n :: Fits(cfg, u)
    ensures ApplyAll(db, RunCmds(cfg, t)).Success? <==> t == 0 || cfg.bind.Accepted()
    ensures t == 0 || cfg.bind.Accepted() ==>
              ApplyAll(db, RunCmds(cfg, t)) == Success(d) && RunInv(cfg, d, t, n) && Beside(db, d)
    decreases t
  {
    hide ApplyAll, RunInv, IterationCmds, Fits, DisjointNets, Beside, BindArgs.Accepted;
    if t == 0 {
      d := db;
      TopologyRun.NothingApplied(db);
      BesideItself(db);
    } else {
      var before := GroupingRun(cfg, db, n, t - 1);
      ApplyConcat(db, RunCmds(cfg, t - 1), IterationCmds(cfg, t - 1));
      d := before;
      if ApplyAll(db, RunCmds(cfg, t - 1)).Success? {
        d := IterationGrouped(cfg, before, t - 1, n);
        BesideTwice(db, before, d);
      }
    }
  }

  /** Port i of iteration t: on the switch whose turn it is, with an address of its own there. */
  ghost predicate PortInPlace(cfg: Config, db: Db, t: nat, i: nat)
    requires |cfg.nets| > 0
  {
    var sw := cfg.nets[t % |cfg.nets|];
    var ip := sw.cidr.ip + t * cfg.batch / |cfg.nets| + cfg.offset + i;
    && Lp(ip) in db.lsps && db.lsps[Lp(ip)].switch == sw.name && db.lsps[Lp(ip)].kind.Vif?
    && db.lsps[Lp(ip)].address == Ip(ip) && db.lsps[Lp(ip)].secured == cfg.security
  }

  /** Every port of the run is there, and is the one the iteration returns. */
  lemma PortStands(cfg: Config, db: Db, n: nat, t: nat, i: nat)
    requires Sized(cfg) && RunInv(cfg, db, n, n) && t < n && i < cfg.batch
    ensures PortInPlace(cfg, db, t, i)
    ensures var lport := Ports(SwitchOf(cfg, t), Shift(cfg, t), cfg.batch, None)[i];
            && lport.name in db.lsps && db.lsps[lport.name].address == Ip(lport.ip)
            && lport.gw == cfg.nets[t % |cfg.nets|].cidr.Last() - 1 && lport.extGw == None
  {
    hide Ruled, Grouped, Absent;
    assert Created(cfg, db, t);
    var ip := WindowIp(cfg, t) + i;
    PortAt(cfg, t, i);
    assert Lp(ip) in db.lsps;
  }

  lemma BesideItself(db: Db)
    ensures Beside(db, db)
  {
  }

  /** The address sets of the name spaces hold the address of every member exactly when a port is its
      iteration's only one: one address is computed per iteration. */
  lemma SetsCompleteIff(cfg: Config, db: Db, n: nat)
    requires Sized(cfg) && DisjointNets(cfg) && n > 0 && RunInv(cfg, db, n, n)
    requires forall u | 0 <= u < n :: Fits(cfg, u)
    ensures (forall k: nat | k < cfg.batch * n ::
               NameSpace(ClassNo(k, cfg.spaceSize)) in db.addressSets
               && PortIp(cfg, k) in db.addressSets[NameSpace(ClassNo(k, cfg.spaceSize))])
            <==> cfg.batch == 1
  {
    hide Fits, DisjointNets, WindowIp, ClassOk, DenyOk, From;
    if cfg.batch == 1 {
      forall k: nat | k < cfg.batch * n
        ensures NameSpace(ClassNo(k, cfg.spaceSize)) in db.addressSets
        ensures PortIp(cfg, k) in db.addressSets[NameSpace(ClassNo(k, cfg.spaceSize))]
      {
        var K := ClassNo(k, cfg.spaceSize);
        ClassOf(k, cfg.spaceSize, K);
        assert SetOk(cfg, db.addressSets, NameSpace(K), cfg.spaceSize, K, cfg.batch * n);
        IndexParts(cfg, k);
        assert WindowIp(cfg, Iteration(cfg, k)) in Addresses(cfg, From(cfg.spaceSize, K), Min(From(cfg.spaceSize, K + 1), cfg.batch * n));
      }
    } else {
      SecondPortMissing(cfg, db, n);
    }
  }

  lemma SecondPortMissing(cfg: Config, db: Db, n: nat)
    requires Sized(cfg) && DisjointNets(cfg) && n > 0 && RunInv(cfg, db, n, n) && cfg.batch > 1
    requires forall u | 0 <= u < n :: Fits(cfg, u)
    ensures 1 < cfg.batch * n
    ensures NameSpace(ClassNo(1, cfg.spaceSize)) in db.addressSets ==>
              PortIp(cfg, 1) !in db.addressSets[NameSpace(ClassNo(1, cfg.spaceSize))]
  {
    hide Fits, DisjointNets, WindowIp, From, Addresses, ClassOk, DenyOk, Created, Absent;
    var K := ClassNo(1, cfg.spaceSize);
    FactorGrows(cfg.batch, n);
    assert SetOk(cfg, db.addressSets, NameSpace(K), cfg.spaceSize, K, cfg.batch * n);
    SecondIpElsewhere(cfg, n, From(cfg.spaceSize, K), Min(From(cfg.spaceSize, K + 1), cfg.batch * n));
  }

  lemma SecondIpElsewhere(cfg: Config, n: nat, lo: nat, hi: nat)
    requires |cfg.nets| > 0 && DisjointNets(cfg) && n > 0 && cfg.batch > 1 && hi <= cfg.batch * n
    requires forall u | 0 <= u < n :: Fits(cfg, u)
    ensures PortIp(cfg, 1) !in Addresses(cfg, lo, hi)
  {
    hide Fits, DisjointNets, WindowIp, Iteration, Slot;
    IndexOf(cfg, 0, 1);
    forall k: nat | k < hi
      ensures WindowIp(cfg, Iteration(cfg, k)) != PortIp(cfg, 1)
    {
      IterationBound(cfg, k, n);
      assert Fits(cfg, 0) && Fits(cfg, Iteration(cfg, k));
      PortAddressesDistinct(cfg, Iteration(cfg, k), 0, 0, 1);
    }
  }

  lemma IterationBound(cfg: Config, k: nat, n: nat)
    requires cfg.batch > 0 && k < cfg.batch * n
    ensures Iteration(cfg, k) < n
  {
    IndexParts(cfg, k);
    assert cfg.batch * (n - Iteration(cfg, k)) > 0;
    FactorGrows(cfg.batch, n - Iteration(cfg, k));
  }
}
