/** What the commands of the builders leave in the database. */
module BuildersDb {
  import opened Common
  import opened NorthDb
  import opened Builders
  import opened TopologyDb

  lemma LastItem(db: Db, items: seq<seq<Cmd>>, before: Db, n: nat)
    requires |items| == n + 1 && ApplyAll(db, Flatten(items[..n])) == Success(before)
    ensures ApplyAll(db, Flatten(items)) == ApplyAll(before, items[n])
  {
    hide ApplyAll;
    assert items == items[..n] + [items[n]];
    FlattenSnoc(items[..n], items[n]);
    ApplyConcat(db, Flatten(items[..n]), items[n]);
  }

  /** The names drawn from number `first` on. */
  function Drawn(first: nat, amount: nat): set<Name> {
    set n: nat | first <= n < first + amount :: Random(n)
  }

  lemma DrawnSnoc(first: nat, n: nat)
    ensures Drawn(first, 0) == {} && Drawn(first, n + 1) == Drawn(first, n) + {Random(first + n)}
    ensures Random(first + n) !in Drawn(first, n)
  {
  }

  /** _create_routers adds a router for each of the names drawn. */
  lemma {:induction false} RoutersMade(db: Db, first: nat, amount: nat)
    requires db.routers !! Drawn(first, amount)
    ensures ApplyAll(db, Flatten(RouterItems(first, amount))) == Success(db.(routers := db.routers + Drawn(first, amount)))
  {
    if amount == 0 {
      DrawnSnoc(first, 0);
      assert db.routers + {} == db.routers;
    } else {
      hide ApplyAll, Drawn;
      var n := amount - 1;
      DrawnSnoc(first, n);
      RoutersMade(db, first, n);
      var items := RouterItems(first, amount);
      assert items[..n] == RouterItems(first, n);
      var before := db.(routers := db.routers + Drawn(first, n));
      LastItem(db, items, before, n);
      assert db.routers + Drawn(first, amount) == before.routers + {Random(first + n)};
      Steps(items[n], [before, db.(routers := db.routers + Drawn(first, amount))]);
    }
  }

  function WithNamed(db: Db, name: Name, settings: Settings): Db {
    db.(switches := db.switches + {name}, config := ConfigAfter(db.config, name, settings))
  }

  function SwitchesAfter(db: Db, first: nat, amount: nat, settings: Settings): Db {
    if amount == 0 then db
    else WithNamed(SwitchesAfter(db, first, amount - 1, settings), Random(first + (amount - 1)), settings)
  }

  lemma {:induction false} SwitchesAdded(db: Db, first: nat, amount: nat, settings: Settings)
    ensures var d := SwitchesAfter(db, first, amount, settings);
            d == db.(switches := db.switches + Drawn(first, amount), config := d.config)
  {
    DrawnSnoc(first, 0);
    if amount == 0 {
      assert db.switches + {} == db.switches;
    } else {
      hide Drawn, ConfigAfter;
      DrawnSnoc(first, amount - 1);
      SwitchesAdded(db, first, amount - 1, settings);
      assert SwitchesAfter(db, first, amount, settings).switches == db.switches + Drawn(first, amount);
    }
  }

  lemma {:induction false} SwitchesConfigured(db: Db, first: nat, amount: nat, settings: Settings, i: nat)
    requires first <= i < first + amount
    ensures Configured(SwitchesAfter(db, first, amount, settings), Random(i), settings)
  {
    hide Configured, WithNamed;
    var before, name := SwitchesAfter(db, first, amount - 1, settings), Random(first + (amount - 1));
    if i == first + (amount - 1) {
      NamedConfigured(before, name, settings);
    } else {
      SwitchesConfigured(db, first, amount - 1, settings, i);
      OtherConfigured(before, name, Random(i), settings);
    }
  }

  lemma NamedConfigured(db: Db, name: Name, settings: Settings)
    ensures Configured(WithNamed(db, name, settings), name, settings)
  {
    hide Configured, ConfigAfter;
    ConfigAfterIs(db.(switches := db.switches + {name}), name, settings);
  }

  lemma OtherConfigured(db: Db, name: Name, other: Name, settings: Settings)
    requires other != name && Configured(db, other, settings)
    ensures Configured(WithNamed(db, name, settings), other, settings)
  {
    ConfigBeside(db.config, name, settings);
  }

  lemma LastSwitchItem(first: nat, n: nat, settings: Settings)
    ensures var items := RandomSwitchItems(first, n + 1, settings);
            && |items| == n + 1 && items[..n] == RandomSwitchItems(first, n, settings)
            && items[n] == [LsAdd(Random(first + n))] + ConfigCmds(Random(first + n), settings)
  {
    hide ConfigCmds;
  }

  lemma NotYetDrawn(db: Db, first: nat, n: nat, settings: Settings)
    requires db.switches !! Drawn(first, n + 1)
    ensures db.switches !! Drawn(first, n) && Random(first + n) !in SwitchesAfter(db, first, n, settings).switches
  {
    hide Drawn, SwitchesAfter;
    DrawnSnoc(first, n);
    SwitchesAdded(db, first, n, settings);
  }

  lemma {:induction false} SwitchesApplied(db: Db, first: nat, amount: nat, settings: Settings)
    requires db.switches !! Drawn(first, amount)
    ensures ApplyAll(db, Flatten(RandomSwitchItems(first, amount, settings))) == Success(SwitchesAfter(db, first, amount, settings))
  {
    if amount == 0 {
    } else {
      var n := amount - 1;
      var before := SwitchesAfter(db, first, n, settings);
      NotYetDrawn(db, first, n, settings);
      hide ApplyAll, ConfigCmds, Drawn, RandomSwitchItems, Flatten, WithNamed;
      SwitchesApplied(db, first, n, settings);
      LastSwitchItem(first, n, settings);
      LastItem(db, RandomSwitchItems(first, amount, settings), before, n);
      NamedApplied(before, Random(first + n), settings);
    }
  }

  lemma NamedApplied(db: Db, name: Name, settings: Settings)
    requires name !in db.switches
    ensures ApplyAll(db, [LsAdd(name)] + ConfigCmds(name, settings)) == Success(WithNamed(db, name, settings))
  {
    hide ApplyAll, ConfigCmds, ConfigAfter, Configured;
    NamedSwitchApplied(db, name, settings);
  }

  /** _create_lswitches without a start CIDR adds a switch for each name, with its settings. */
  lemma RandomSwitchesMade(db: Db, first: nat, amount: nat, settings: Settings) returns (d: Db)
    requires db.switches !! Drawn(first, amount)
    ensures ApplyAll(db, Flatten(RandomSwitchItems(first, amount, settings))) == Success(d)
    ensures d == db.(switches := db.switches + Drawn(first, amount), config := d.config)
    ensures forall i: nat | first <= i < first + amount :: Configured(d, Random(i), settings)
  {
    hide ApplyAll, Flatten, RandomSwitchItems, Drawn, Configured, SwitchesAfter;
    d := SwitchesAfter(db, first, amount, settings);
    SwitchesApplied(db, first, amount, settings);
    SwitchesAdded(db, first, amount, settings);
    forall i: nat | first <= i < first + amount
      ensures Configured(d, Random(i), settings)
    {
      SwitchesConfigured(db, first, amount, settings, i);
    }
  }

  // ---- rules of ports

  function ToSet(acls: seq<Acl>): set<Acl> {
    set a | a in acls
  }

  /** Whether what a rule belongs to exists. */
  predicate EntityThere(db: Db, a: Acl) {
    if a.ofGroup then a.entity in db.groups else a.entity in db.switches
  }

  /** Rules that clash with none there, nor with each other, are added. */
  lemma {:induction false} AclsApplied(db: Db, acls: seq<Acl>)
    requires forall j | 0 <= j < |acls| :: EntityThere(db, acls[j])
    requires forall a, j | a in db.acls && 0 <= j < |acls| :: !SameAcl(a, acls[j])
    requires forall j, k | 0 <= j < k < |acls| :: !SameAcl(acls[j], acls[k])
    ensures ApplyAll(db, AclList(acls)) == Success(db.(acls := db.acls + ToSet(acls)))
    decreases |acls|
  {
    if acls == [] {
      assert db.acls + ToSet(acls) == db.acls;
    } else {
      var n := |acls| - 1;
      assert EntityThere(db, acls[n]);
      hide ApplyAll, SameAcl, EntityThere;
      AclsApplied(db, acls[..n]);
      assert acls == acls[..n] + [acls[n]];
      assert AclList(acls) == AclList(acls[..n]) + [AclAdd(acls[n])];
      var before := db.(acls := db.acls + ToSet(acls[..n]));
      AclApplied(before, acls[n]);
      Step(db, AclList(acls[..n]), AclAdd(acls[n]));
      assert ToSet(acls) == ToSet(acls[..n]) + {acls[n]};
      assert before.acls + {acls[n]} == db.acls + ToSet(acls);
    }
  }

  lemma AclApplied(db: Db, a: Acl)
    requires (if a.ofGroup then a.entity in db.groups else a.entity in db.switches)
    requires forall o | o in db.acls :: !SameAcl(o, a)
    ensures Apply(db, AclAdd(a)) == Success(db.(acls := db.acls + {a}))
  {
  }

  /** Rule i of a port: the match given, or UDP from port 100 + i. */
  function PortAcl(entity: Name, port: Name, args: AclArgs, i: nat): Acl {
    Acl(entity, args.ofGroup, args.direction, args.priority, port,
        match args.match_ case Some(m) => m case None => UdpSrc(100 + i), args.action)
  }

  function PortAcls(entity: Name, port: Name, args: AclArgs, perPort: nat): seq<Acl> {
    seq(perPort, i requires 0 <= i < perPort => PortAcl(entity, port, args, i))
  }

  /** The rules of all ports. */
  function AllAcls(entity: Name, ports: seq<Name>, args: AclArgs, perPort: nat): set<Acl> {
    set j, i | 0 <= j < |ports| && 0 <= i < perPort :: PortAcl(entity, ports[j], args, i)
  }

  lemma InAllAcls(entity: Name, ports: seq<Name>, args: AclArgs, perPort: nat, a: Acl)
    ensures a in AllAcls(entity, ports, args, perPort)
            <==> exists j, i: nat :: 0 <= j < |ports| && i < perPort && a == PortAcl(entity, ports[j], args, i)
  {
  }

  lemma InPortAcls(entity: Name, port: Name, args: AclArgs, perPort: nat, a: Acl)
    ensures a in ToSet(PortAcls(entity, port, args, perPort)) <==> exists i: nat :: i < perPort && a == PortAcl(entity, port, args, i)
  {
    hide PortAcl;
    var acls := PortAcls(entity, port, args, perPort);
    if a in acls {
      var i :| 0 <= i < |acls| && acls[i] == a;
      assert a == PortAcl(entity, port, args, i);
    } else {
      forall i: nat | i < perPort
        ensures a != PortAcl(entity, port, args, i)
      {
        assert acls[i] in acls;
      }
    }
  }

  lemma AllAclsSnoc(entity: Name, ports: seq<Name>, args: AclArgs, perPort: nat)
    requires ports != []
    ensures var n := |ports| - 1;
            AllAcls(entity, ports, args, perPort)
            == AllAcls(entity, ports[..n], args, perPort) + ToSet(PortAcls(entity, ports[n], args, perPort))
  {
    hide AllAcls, PortAcls, ToSet, PortAcl;
    var n := |ports| - 1;
    forall a: Acl
      ensures a in AllAcls(entity, ports, args, perPort)
              <==> a in AllAcls(entity, ports[..n], args, perPort) || a in ToSet(PortAcls(entity, ports[n], args, perPort))
    {
      InAllAcls(entity, ports, args, perPort, a);
      InAllAcls(entity, ports[..n], args, perPort, a);
      InPortAcls(entity, ports[n], args, perPort, a);
      if j, i: nat :| 0 <= j < n && i < perPort && a == PortAcl(entity, ports[j], args, i) {
        assert ports[..n][j] == ports[j];
      }
    }
  }

  /** What the rules of some ports are for exists, the ports are different, and none has a rule there yet. */
  ghost predicate Free(db: Db, entity: Name, ports: seq<Name>, args: AclArgs) {
    && (if args.ofGroup then entity in db.groups else entity in db.switches)
    && (forall i, j | 0 <= i < j < |ports| :: ports[i] != ports[j])
    && (forall a | a in db.acls :: a.entity != entity || a.ofGroup != args.ofGroup || a.port !in ports)
  }

  /** The last port stays free while the others get their rules. */
  lemma LastPortFree(db: Db, entity: Name, ports: seq<Name>, args: AclArgs, perPort: nat)
    requires ports != [] && Free(db, entity, ports, args)
    ensures var n := |ports| - 1;
            && Free(db, entity, ports[..n], args)
            && Free(db.(acls := db.acls + AllAcls(entity, ports[..n], args, perPort)), entity, [ports[n]], args)
  {
    hide AllAcls;
    var n := |ports| - 1;
    forall a | a in AllAcls(entity, ports[..n], args, perPort)
      ensures a.port != ports[n]
    {
      InAllAcls(entity, ports[..n], args, perPort, a);
    }
  }

  lemma LastAclItem(entity: Name, ports: seq<Name>, args: AclArgs, perPort: nat)
    requires ports != []
    ensures var n, items := |ports| - 1, AclItems(entity, ports, args, perPort);
            && |items| == n + 1 && items[..n] == AclItems(entity, ports[..n], args, perPort)
            && items[n] == AclCmds(entity, ports[n], args, perPort)
  {
    hide AclCmds;
  }

  lemma {:induction false} RulesAccepted(db: Db, entity: Name, ports: seq<Name>, args: AclArgs, perPort: nat)
    requires Free(db, entity, ports, args) && (args.match_.None? || perPort <= 1)
    ensures ApplyAll(db, Flatten(AclItems(entity, ports, args, perPort)))
            == Success(db.(acls := db.acls + AllAcls(entity, ports, args, perPort)))
    decreases |ports|
  {
    if ports == [] {
      assert db.acls + AllAcls(entity, ports, args, perPort) == db.acls;
    } else {
      hide ApplyAll, Flatten, AclItems, AclCmds, AllAcls, PortAcls, ToSet, Free;
      var n := |ports| - 1;
      LastPortFree(db, entity, ports, args, perPort);
      RulesAccepted(db, entity, ports[..n], args, perPort);
      var before := db.(acls := db.acls + AllAcls(entity, ports[..n], args, perPort));
      LastAclItem(entity, ports, args, perPort);
      LastItem(db, AclItems(entity, ports, args, perPort), before, n);
      OnePort(before, entity, ports[n], args, perPort);
      AllAclsSnoc(entity, ports, args, perPort);
      assert db.acls + AllAcls(entity, ports, args, perPort)
          == before.acls + ToSet(PortAcls(entity, ports[n], args, perPort));
    }
  }

  /** _create_acl: with one rule per port, or no match given, every port gets its rules; with a match given a
      second rule of a port clashes with the first and is refused. */
  lemma PortRulesMade(db: Db, entity: Name, ports: seq<Name>, args: AclArgs, perPort: nat)
    requires Free(db, entity, ports, args)
    ensures var r := ApplyAll(db, Flatten(AclItems(entity, ports, args, perPort)));
            && (r.Success? <==> ports == [] || args.match_.None? || perPort <= 1)
            && (r.Success? ==> r == Success(db.(acls := db.acls + AllAcls(entity, ports, args, perPort))))
  {
    if args.match_.None? || perPort <= 1 {
      hide ApplyAll, Flatten, AclItems, AllAcls, Free;
      RulesAccepted(db, entity, ports, args, perPort);
    } else if ports == [] {
      assert db.acls + AllAcls(entity, ports, args, perPort) == db.acls;
    } else {
      hide ApplyAll, Flatten, AclItems, AllAcls, Free;
      FirstPortRefused(db, entity, ports, args, perPort);
    }
  }

  lemma OnePort(db: Db, entity: Name, port: Name, args: AclArgs, perPort: nat)
    requires Free(db, entity, [port], args) && (args.match_.None? || perPort <= 1)
    ensures ApplyAll(db, AclCmds(entity, port, args, perPort))
            == Success(db.(acls := db.acls + ToSet(PortAcls(entity, port, args, perPort))))
  {
    hide ApplyAll;
    var acls := PortAcls(entity, port, args, perPort);
    assert port in [port];
    assert AclCmds(entity, port, args, perPort) == AclList(acls);
    AclsApplied(db, acls);
  }

  lemma FirstPortRefused(db: Db, entity: Name, ports: seq<Name>, args: AclArgs, perPort: nat)
    requires ports != [] && args.match_.Some? && perPort >= 2
    ensures ApplyAll(db, Flatten(AclItems(entity, ports, args, perPort))).Failure?
  {
    var items := AclItems(entity, ports, args, perPort);
    var cmds := items[0];
    var a := AclOf(entity, ports[0], args, 0);
    assert cmds[0] == AclAdd(a) && cmds[1..][0] == AclAdd(a);
    ApplyConcat(db, cmds, Flatten(items[1..]));
  }

  /** So without a match, exactly the UDP packets from source ports 100 to 99 + perPort are concerned. */
  lemma UdpDecided(db: Db, switch: Name, port: Name, args: AclArgs, perPort: nat, packet: Packet)
    requires args.match_.None? && !args.ofGroup && port in db.lsps && db.lsps[port].switch == switch
    ensures var rules := ToSet(PortAcls(switch, port, args, perPort));
            var d := Decision(args.priority, args.action);
            Decides(db, rules, port, args.direction, packet, d)
            <==> packet.Ip4Packet? && packet.udpFrom.Some? && 100 <= packet.udpFrom.value < 100 + perPort
  {
    var acls := PortAcls(switch, port, args, perPort);
    var d := Decision(args.priority, args.action);
    if packet.Ip4Packet? && packet.udpFrom.Some? && 100 <= packet.udpFrom.value < 100 + perPort {
      assert TopRule(db, ToSet(acls), port, args.direction, packet, acls[packet.udpFrom.value - 100]);
    }
  }

  /** _delete_all_acls_in_lswitches leaves the rules of port groups and of other switches. */
  lemma {:induction false} RulesDeleted(db: Db, switches: seq<Name>)
    requires forall s | s in switches :: s in db.switches
    ensures ApplyAll(db, seq(|switches|, i requires 0 <= i < |switches| => AclDel(switches[i])))
            == Success(db.(acls := set a | a in db.acls && (a.ofGroup || a.entity !in switches)))
    decreases |switches|
  {
    var cmds := seq(|switches|, i requires 0 <= i < |switches| => AclDel(switches[i]));
    if switches == [] {
      assert (set a | a in db.acls && (a.ofGroup || a.entity !in switches)) == db.acls;
    } else {
      hide ApplyAll;
      var n := |switches| - 1;
      var rest := seq(n, i requires 0 <= i < n => AclDel(switches[..n][i]));
      RulesDeleted(db, switches[..n]);
      assert cmds == rest + [AclDel(switches[n])];
      Step(db, rest, AclDel(switches[n]));
      assert switches == switches[..n] + [switches[n]];
      var before := set a | a in db.acls && (a.ofGroup || a.entity !in switches[..n]);
      assert (set a | a in before && !(a.entity == switches[n] && !a.ofGroup))
          == set a | a in db.acls && (a.ofGroup || a.entity !in switches);
    }
  }
}
