/** The OVN northbound database as ovn-nbctl changes it: one command at a time, each of which can
    be refused, and several commands of one invocation as one transaction. */
module NorthDb {
  import opened Common
  import opened Cidrs

  /** Record names. The names the scenarios format from an address are kept as constructors. */
  datatype Name =
    | Random(id: nat)           // generate_random_name
    | LSwitch(net: Cidr)        // lswitch_<cidr>, of a switch and of the router port towards it
    | JoinSwitch(net: Cidr)     // join_<cidr>
    | ExtSwitch(net: Cidr)      // ext_<cidr>
    | GwRouter(net: Cidr)       // grouter_<cidr>
    | Rp(of: Name)              // rp-<switch>, switch side of the cluster router port
    | Rpj(net: Cidr)            // rpj-<cidr>, cluster router port on the join switch
    | Jrp(net: Cidr)            // jrp-<cidr>, its switch side
    | Grpj(net: Cidr)           // grpj-<cidr>, gateway router port on the join switch
    | Jrpg(net: Cidr)           // jrpg-<cidr>, its switch side
    | Grpe(net: Cidr)           // grpe-<cidr>, gateway router port on the external switch
    | Erpg(net: Cidr)           // erpg-<cidr>, its switch side
    | Provnet(of: Name)         // provnet-<switch>
    | Lp(ip: nat)               // lp_<ip>
    | NetworkPolicy(index: nat)
    | McastGroup(of: Name)      // mcastPortGroup_<name space>
    | NameSpace(index: nat)
    | DefDeny
    | MultiDefDeny
    | Ingress(of: Name)         // <name>_ingress_as
    | Egress(of: Name)          // <name>_egress_as

  datatype Kind = Vif | RouterKind | Localnet
  datatype Address = NoAddress | Unknown | Ip(ip: nat)
  datatype Lsp = Lsp(switch: Name, kind: Kind, peer: Option<Name>, address: Address, physnet: Option<string>, secured: bool)
  datatype Lrp = Lrp(router: Name, net: Cidr)
  datatype Route = Route(router: Name, dst: Cidr, nextHop: int, srcIp: bool)
  datatype Direction = FromLport | ToLport
  datatype Match = Arp | Any | Ip4 | Mcast | SrcIn(set_: Name) | DstIn(set_: Name) | UdpSrc(port: int)
  datatype Action = Allow | AllowRelated | Drop
  datatype Acl = Acl(entity: Name, ofGroup: bool, direction: Direction, priority: int,
                     port: Name, match_: Match, action: Action)

  datatype Cmd =
    | LsAdd(switch: Name)
    | SetSwitchConfig(switch: Name, key: string, val: string)
    | LrAdd(router: Name)
    | LrpAdd(router: Name, port: Name, net: Cidr)
    | LspAdd(switch: Name, port: Name)
    | SetRouterPeer(port: Name, peer: Name)
    | SetChassis(router: Name, container: nat)
    | SetForceSnat(router: Name, ip: int)
    | RouteAdd(route: Route)
    | NatAdd(router: Name, external: int, logical: Cidr)
    | LspSetAddresses(port: Name, address: Address)
    | LspSetPortSecurity(port: Name)
    | LspSetLocalnet(port: Name)
    | LspSetPhysnet(port: Name, physnet: string)
    | AclAdd(acl: Acl)
    | AclDel(switch: Name)
    | PgAdd(group: Name, port: Name)
    | GetPortUuid(port: Name)
    | PgAddPort(group: Name, port: Name)
    | AsCreate(set_: Name, member: nat)
    | AsAdd(set_: Name, member: nat)
    | WaitUp(port: Name)
    | SyncCmd(wait: string)
    | FindChassis(chassis: string)

  datatype Db = Db(switches: set<Name>, config: map<(Name, string), string>, routers: set<Name>,
                   lsps: map<Name, Lsp>, lrps: map<Name, Lrp>, chassis: map<Name, nat>, snat: map<Name, int>,
                   routes: set<Route>, nats: set<(Name, int, Cidr)>, acls: set<Acl>,
                   groups: map<Name, set<Name>>, addressSets: map<Name, set<nat>>)

  /** A port as lsp-add makes it. */
  function NewPort(switch: Name): Lsp {
    Lsp(switch, Vif, None, NoAddress, None, false)
  }

  function Check(ok: bool, db: Db): Result<Db> {
    if ok then Success(db) else Failure(Rejected)
  }

  /** Two ACLs of one entity clash when they agree on all but the action. */
  predicate SameAcl(a: Acl, b: Acl) {
    a.(action := b.action) == b
  }

  /** One ovn-nbctl command. */
  function Apply(db: Db, cmd: Cmd): Result<Db> {
    match cmd
    case LsAdd(s) => Check(s !in db.switches, db.(switches := db.switches + {s}))
    case SetSwitchConfig(s, k, v) => Check(s in db.switches, db.(config := db.config[(s, k) := v]))
    case LrAdd(r) => Check(r !in db.routers, db.(routers := db.routers + {r}))
    case LrpAdd(r, p, net) =>
      Check(r in db.routers && p !in db.lrps, db.(lrps := db.lrps[p := Lrp(r, net)]))
    case LspAdd(s, p) =>
      Check(s in db.switches && p !in db.lsps, db.(lsps := db.lsps[p := NewPort(s)]))
    case SetRouterPeer(p, q) =>
      if p !in db.lsps then Failure(Rejected)
      else Success(db.(lsps := db.lsps[p := db.lsps[p].(kind := RouterKind, peer := Some(q))]))
    case SetChassis(r, c) => Check(r in db.routers, db.(chassis := db.chassis[r := c]))
    case SetForceSnat(r, a) => Check(r in db.routers, db.(snat := db.snat[r := a]))
    case RouteAdd(r) =>
      Check(r.router in db.routers &&
            (forall o | o in db.routes :: o.router != r.router || o.dst.Network() != r.dst.Network() || o.srcIp != r.srcIp),
            db.(routes := db.routes + {r}))
    case NatAdd(r, e, l) =>
      Check(r in db.routers && (forall o | o in db.nats :: o.0 != r || o.2.Network() != l.Network()),
            db.(nats := db.nats + {(r, e, l)}))
    case LspSetAddresses(p, a) =>
      if p !in db.lsps then Failure(Rejected)
      else Success(db.(lsps := db.lsps[p := db.lsps[p].(address := a)]))
    case LspSetPortSecurity(p) =>
      if p !in db.lsps then Failure(Rejected)
      else Success(db.(lsps := db.lsps[p := db.lsps[p].(secured := true)]))
    case LspSetLocalnet(p) =>
      if p !in db.lsps then Failure(Rejected)
      else Success(db.(lsps := db.lsps[p := db.lsps[p].(kind := Localnet)]))
    case LspSetPhysnet(p, n) =>
      if p !in db.lsps then Failure(Rejected)
      else Success(db.(lsps := db.lsps[p := db.lsps[p].(physnet := Some(n))]))
    case AclAdd(a) =>
      Check((if a.ofGroup then a.entity in db.groups else a.entity in db.switches) &&
            (forall o | o in db.acls :: !SameAcl(o, a)),
            db.(acls := db.acls + {a}))
    case AclDel(s) =>
      Check(s in db.switches, db.(acls := set a | a in db.acls && !(a.entity == s && !a.ofGroup)))
    case PgAdd(g, p) =>
      Check(g !in db.groups && p in db.lsps, db.(groups := db.groups[g := {p}]))
    case GetPortUuid(p) => Check(p in db.lsps, db)
    case PgAddPort(g, p) =>
      if g !in db.groups || p !in db.lsps then Failure(Rejected)
      else Success(db.(groups := db.groups[g := db.groups[g] + {p}]))
    case AsCreate(n, a) => Check(n !in db.addressSets, db.(addressSets := db.addressSets[n := {a}]))
    case AsAdd(n, a) =>
      if n !in db.addressSets then Failure(Rejected)
      else Success(db.(addressSets := db.addressSets[n := db.addressSets[n] + {a}]))
    case WaitUp(p) => Check(p in db.lsps, db)
    case SyncCmd(w) => Check(w in ["none", "sb", "hv"], db)
    case FindChassis(_) => Success(db)
  }

  // ---- what the rules decide

  datatype Packet = ArpPacket | Ip4Packet(src: nat, dst: nat, mcast: bool, udpFrom: Option<int>) | OtherPacket

  predicate Listed(db: Db, set_: Name, ip: nat) {
    set_ in db.addressSets && ip in db.addressSets[set_]
  }

  predicate Matches(db: Db, m: Match, packet: Packet) {
    match m
    case Any => true
    case Arp => packet.ArpPacket?
    case Ip4 => packet.Ip4Packet?
    case Mcast => packet.Ip4Packet? && packet.mcast
    case SrcIn(s) => packet.Ip4Packet? && Listed(db, s, packet.src)
    case DstIn(s) => packet.Ip4Packet? && Listed(db, s, packet.dst)
    case UdpSrc(p) => packet.Ip4Packet? && packet.udpFrom == Some(p)
  }

  predicate Member(db: Db, group: Name, port: Name) {
    group in db.groups && port in db.groups[group]
  }

  /** Whether a rule is about packets from (or to) a port: a member of its group, or the port it names. */
  predicate Concerns(db: Db, a: Acl, port: Name, direction: Direction) {
    && a.direction == direction
    && if a.ofGroup then Member(db, a.entity, port) && Member(db, a.port, port)
       else a.port == port && port in db.lsps && db.lsps[port].switch == a.entity
  }

  predicate Hits(db: Db, a: Acl, port: Name, direction: Direction, packet: Packet) {
    Concerns(db, a, port, direction) && Matches(db, a.match_, packet)
  }

  datatype Decision = Decision(priority: int, action: Action)

  /** Of the rules that match a packet, those of the highest priority agree on the action. */
  ghost predicate Decides(db: Db, rules: set<Acl>, port: Name, direction: Direction, packet: Packet, d: Decision) {
    exists top :: TopRule(db, rules, port, direction, packet, top) && Decision(top.priority, top.action) == d
  }

  ghost predicate TopRule(db: Db, rules: set<Acl>, port: Name, direction: Direction, packet: Packet, top: Acl) {
    && top in rules && Hits(db, top, port, direction, packet)
    && forall a | a in rules && Hits(db, a, port, direction, packet) ::
         a.priority < top.priority || (a.priority == top.priority && a.action == top.action)
  }

  /** So they decide one thing. */
  lemma DecidesOnce(db: Db, rules: set<Acl>, port: Name, direction: Direction, packet: Packet, a: Decision, b: Decision)
    requires Decides(db, rules, port, direction, packet, a) && Decides(db, rules, port, direction, packet, b)
    ensures a == b
  {
    var x :| TopRule(db, rules, port, direction, packet, x) && Decision(x.priority, x.action) == a;
    var y :| TopRule(db, rules, port, direction, packet, y) && Decision(y.priority, y.action) == b;
  }

  /** One invocation: all of its commands or none. */
  function ApplyAll(db: Db, cmds: seq<Cmd>): Result<Db>
    decreases cmds
  {
    if cmds == [] then Success(db)
    else
      var next :- Apply(db, cmds[0]);
      ApplyAll(next, cmds[1..])
  }

  lemma {:induction false} ApplyConcat(db: Db, a: seq<Cmd>, b: seq<Cmd>)
    ensures ApplyAll(db, a).Success? ==> ApplyAll(db, a + b) == ApplyAll(ApplyAll(db, a).value, b)
    ensures ApplyAll(db, a).Failure? ==> ApplyAll(db, a + b).Failure?
    decreases a
  {
    if a == [] {
      assert a + b == b;
    } else {
      assert (a + b)[1..] == a[1..] + b;
      if Apply(db, a[0]).Success? {
        ApplyConcat(Apply(db, a[0]).value, a[1..], b);
      }
    }
  }

  /** What a sequence of invocations leaves behind; the first refused one raises and ends it. */
  datatype Outcome = Outcome(db: Db, ok: bool)

  function RunBatches(db: Db, batches: seq<seq<Cmd>>): Outcome
    decreases batches
  {
    if batches == [] then Outcome(db, true)
    else
      match ApplyAll(db, batches[0])
      case Success(next) => RunBatches(next, batches[1..])
      case Failure(_) => Outcome(db, false)
  }

  /** However a command list is cut into invocations, the run succeeds exactly when the whole list
      does, and then ends in the same database; a run that fails stops where the batches before the
      refused one end. */
  lemma {:induction false} BatchesRefineCommands(db: Db, batches: seq<seq<Cmd>>)
    ensures RunBatches(db, batches).ok <==> ApplyAll(db, Flatten(batches)).Success?
    ensures RunBatches(db, batches).ok ==> ApplyAll(db, Flatten(batches)) == Success(RunBatches(db, batches).db)
    ensures !RunBatches(db, batches).ok ==>
              exists k :: 0 <= k < |batches|
                          && ApplyAll(db, Flatten(batches[..k])) == Success(RunBatches(db, batches).db)
                          && ApplyAll(RunBatches(db, batches).db, batches[k]).Failure?
    decreases batches
  {
    if batches == [] {
    } else {
      var first, rest := batches[0], batches[1..];
      ApplyConcat(db, first, Flatten(rest));
      if ApplyAll(db, first).Success? {
        var next := ApplyAll(db, first).value;
        BatchesRefineCommands(next, rest);
        if !RunBatches(next, rest).ok {
          var k :| 0 <= k < |rest| && ApplyAll(next, Flatten(rest[..k])) == Success(RunBatches(next, rest).db)
                   && ApplyAll(RunBatches(next, rest).db, rest[k]).Failure?;
          assert batches[..k + 1] == [first] + rest[..k];
          ApplyConcat(db, first, Flatten(rest[..k]));
          assert batches[k + 1] == rest[k];
        }
      } else {
        assert Flatten(batches[..0]) == [];
      }
    }
  }

  function Singletons(cmds: seq<Cmd>): seq<seq<Cmd>> {
    seq(|cmds|, i requires 0 <= i < |cmds| => [cmds[i]])
  }

  lemma {:induction false} FlattenSingletons(cmds: seq<Cmd>)
    ensures Flatten(Singletons(cmds)) == cmds
  {
    if cmds == [] {
    } else {
      assert Singletons(cmds)[1..] == Singletons(cmds[1..]);
      FlattenSingletons(cmds[1..]);
    }
  }

  /** A prefix that is accepted ends before a command that is refused. */
  lemma AcceptedBeforeRefused(db: Db, cmds: seq<Cmd>, k: nat, m: nat)
    requires k <= |cmds| && m < |cmds|
    requires ApplyAll(db, cmds[..k]).Success? && ApplyAll(db, cmds[..m]).Success?
    requires ApplyAll(ApplyAll(db, cmds[..m]).value, [cmds[m]]).Failure?
    ensures k <= m
  {
    if m < k {
      assert cmds[..k] == cmds[..m] + ([cmds[m]] + cmds[m + 1..k]);
      ApplyConcat(db, cmds[..m], [cmds[m]] + cmds[m + 1..k]);
      ApplyConcat(ApplyAll(db, cmds[..m]).value, [cmds[m]], cmds[m + 1..k]);
    }
  }

  /** Where a run of immediate commands stops. */
  lemma ImmediateStop(db: Db, cmds: seq<Cmd>) returns (m: nat)
    requires !RunBatches(db, Singletons(cmds)).ok
    ensures m < |cmds| && ApplyAll(db, cmds[..m]) == Success(RunBatches(db, Singletons(cmds)).db)
    ensures ApplyAll(RunBatches(db, Singletons(cmds)).db, [cmds[m]]).Failure?
  {
    var now := RunBatches(db, Singletons(cmds)).db;
    BatchesRefineCommands(db, Singletons(cmds));
    m :| 0 <= m < |Singletons(cmds)| && ApplyAll(db, Flatten(Singletons(cmds)[..m])) == Success(now)
         && ApplyAll(now, Singletons(cmds)[m]).Failure?;
    assert Singletons(cmds)[..m] == Singletons(cmds[..m]);
    FlattenSingletons(cmds[..m]);
  }

  /** Batching refines running each command immediately: same success, same final database; on a
      refusal both have applied a prefix of the commands, the batched run no more than the other. */
  lemma BatchingRefinesImmediate(db: Db, batches: seq<seq<Cmd>>)
    ensures var cmds := Flatten(batches);
            var now := RunBatches(db, Singletons(cmds));
            var cut := RunBatches(db, batches);
            && now.ok == cut.ok
            && (now.ok ==> now.db == cut.db)
            && (!now.ok ==> exists k, m :: 0 <= k <= m <= |cmds|
                                           && ApplyAll(db, cmds[..k]) == Success(cut.db)
                                           && ApplyAll(db, cmds[..m]) == Success(now.db))
  {
    hide ApplyAll, RunBatches, Singletons;
    var cmds := Flatten(batches);
    var now, cut := RunBatches(db, Singletons(cmds)), RunBatches(db, batches);
    FlattenSingletons(cmds);
    BatchesRefineCommands(db, Singletons(cmds));
    BatchesRefineCommands(db, batches);
    if !now.ok {
      var m := ImmediateStop(db, cmds);
      var j :| 0 <= j < |batches| && ApplyAll(db, Flatten(batches[..j])) == Success(cut.db)
               && ApplyAll(cut.db, batches[j]).Failure?;
      assert batches == batches[..j] + batches[j..];
      FlattenConcat(batches[..j], batches[j..]);
      assert cmds[..|Flatten(batches[..j])|] == Flatten(batches[..j]);
      AcceptedBeforeRefused(db, cmds, |Flatten(batches[..j])|, m);
    }
  }
}
