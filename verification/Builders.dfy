/** The controller operations: each drives the one cached client and leaves it as it found it. */
module Builders {
  import opened Common
  import opened Cidrs
  import opened NorthDb
  import opened NbCtls
  import opened Batching

  datatype Lswitch = Lswitch(name: Name, cidr: Cidr)
  datatype Lport = Lport(name: Name, ip: nat, gw: int, extGw: Option<int>)
  type Settings = seq<(string, string)>

  // ---- the commands of one item of each builder

  function ConfigCmds(name: Name, settings: Settings): seq<Cmd> {
    seq(|settings|, i requires 0 <= i < |settings| => SetSwitchConfig(name, settings[i].0, settings[i].1))
  }

  function SwitchCmds(net: Cidr, settings: Settings): seq<Cmd> {
    [LsAdd(LSwitch(net))] + ConfigCmds(LSwitch(net), settings)
  }

  function SwitchItems(start: Cidr, amount: nat, settings: Settings): seq<seq<Cmd>> {
    seq(amount, i requires 0 <= i < amount => SwitchCmds(start.At(i), settings))
  }

  function RandomSwitchItems(first: nat, amount: nat, settings: Settings): seq<seq<Cmd>> {
    seq(amount, i requires 0 <= i < amount => [LsAdd(Random(first + i))] + ConfigCmds(Random(first + i), settings))
  }

  function Lswitches(start: Cidr, amount: nat): seq<Lswitch> {
    seq(amount, i requires 0 <= i < amount => Lswitch(LSwitch(start.At(i)), start.At(i)))
  }

  function RouterItems(first: nat, amount: nat): seq<seq<Cmd>> {
    seq(amount, i requires 0 <= i < amount => [LrAdd(Random(first + i))])
  }

  function PhynetCmds(switch: Name, physnet: string): seq<Cmd> {
    var port := Provnet(switch);
    [LspAdd(switch, port), LspSetAddresses(port, Unknown), LspSetLocalnet(port), LspSetPhysnet(port, physnet)]
  }

  function PhynetItems(switches: seq<Name>, physnet: string): seq<seq<Cmd>> {
    seq(|switches|, i requires 0 <= i < |switches| => PhynetCmds(switches[i], physnet))
  }

  function PortCmds(switch: Name, ip: nat, security: bool): seq<Cmd> {
    [LspAdd(switch, Lp(ip)), LspSetAddresses(Lp(ip), Ip(ip))]
    + if security then [LspSetPortSecurity(Lp(ip))] else []
  }

  function PortItems(switch: Name, first: nat, amount: nat, security: bool): seq<seq<Cmd>> {
    seq(amount, i requires 0 <= i < amount => PortCmds(switch, first + i, security))
  }

  function Ports(sw: Lswitch, shift: nat, amount: nat, extGw: Option<int>): seq<Lport> {
    seq(amount, i requires 0 <= i < amount => Lport(Lp(sw.cidr.ip + shift + i), sw.cidr.ip + shift + i,
                                                    sw.cidr.Gateway(1), extGw))
  }

  lemma PortsSnoc(sw: Lswitch, shift: nat, amount: nat, extGw: Option<int>)
    ensures Ports(sw, shift, amount + 1, extGw)
            == Ports(sw, shift, amount, extGw) + [Lport(Lp(sw.cidr.ip + shift + amount), sw.cidr.ip + shift + amount,
                                                        sw.cidr.Gateway(1), extGw)]
  {
  }

  /** The size check of _create_switch_lports: the address after the window is still in the network. */
  predicate WindowFits(net: Cidr, shift: nat, amount: nat) {
    net.Contains(net.ip + shift + amount)
  }

  /** The check passes exactly when every address of the window, and the next one, is in the network. */
  lemma WindowFitsIff(net: Cidr, shift: nat, amount: nat)
    requires net.Valid()
    ensures WindowFits(net, shift, amount)
            <==> forall a: int | net.ip + shift <= a <= net.ip + shift + amount :: net.Contains(a)
  {
    if !WindowFits(net, shift, amount) {
      assert !net.Contains(net.ip + shift + amount);
    }
  }

  function ExtGateway(ext: Option<Cidr>): Option<int> {
    if ext.Some? then Some(ext.value.Gateway(2)) else None
  }

  function NamesOf(lports: seq<Lport>): seq<Name> {
    seq(|lports|, i requires 0 <= i < |lports| => lports[i].name)
  }

  function WaitCmds(ports: seq<Name>): seq<Cmd> {
    seq(|ports|, i requires 0 <= i < |ports| => WaitUp(ports[i]))
  }

  /** What _wait_up_port sends; pings are not for the database. */
  function UpCmds(ports: seq<Name>, waitSync: string): seq<Cmd> {
    if waitSync == "ping" then []
    else WaitCmds(ports) + if waitSync == "none" then [] else [SyncCmd(waitSync)]
  }

  /** From position n on: one wait for each port in order, then the sync if there is to be one. */
  predicate UpAt(sent: seq<Cmd>, n: nat, ports: seq<Name>, waitSync: string) {
    && |sent| == n + |ports| + (if waitSync == "none" then 0 else 1)
    && (forall k | 0 <= k < |ports| :: sent[n + k] == WaitUp(ports[k]))
    && (waitSync != "none" ==> sent[n + |ports|] == SyncCmd(waitSync))
  }

  lemma UpIsUp(sent: seq<Cmd>, ports: seq<Name>, waitSync: string)
    ensures waitSync != "ping" ==> UpAt(sent + UpCmds(ports, waitSync), |sent|, ports, waitSync)
    ensures waitSync == "ping" ==> sent + UpCmds(ports, waitSync) == sent
  {
  }

  function Lower(s: string): (r: string)
    ensures |r| == |s|
  {
    seq(|s|, i requires 0 <= i < |s| =>
          if 'A' <= s[i] <= 'Z' then (s[i] as int - 'A' as int + 'a' as int) as char else s[i])
  }

  /** What _bind_ports_and_wait takes from its argument dict. */
  datatype BindArgs = BindArgs(waitUp: bool, waitSync: string) {
    /** The check of wait_sync ignores case, what follows does not. */
    predicate Known() {
      Lower(waitSync) in ["hv", "sb", "ping", "none"]
    }

    /** ovn-nbctl takes the words only as they are. */
    predicate Exact() {
      waitSync in ["hv", "sb", "ping", "none"]
    }

    predicate Accepted() {
      waitUp ==> Exact()
    }

    function Waits(ports: seq<Name>): seq<Cmd> {
      if waitUp then UpCmds(ports, waitSync) else []
    }
  }

  /** What _create_acl takes from its argument dict. */
  datatype AclArgs = AclArgs(direction: Direction, priority: int, action: Action, match_: Option<Match>,
                             ofGroup: bool)

  function AclOf(entity: Name, port: Name, args: AclArgs, i: nat): Acl {
    Acl(entity, args.ofGroup, args.direction, args.priority, port,
        if args.match_.Some? then args.match_.value else UdpSrc(100 + i), args.action)
  }

  function AclList(acls: seq<Acl>): seq<Cmd> {
    seq(|acls|, i requires 0 <= i < |acls| => AclAdd(acls[i]))
  }

  function AclCmds(entity: Name, port: Name, args: AclArgs, perPort: nat): seq<Cmd> {
    seq(perPort, i requires 0 <= i < perPort => AclAdd(AclOf(entity, port, args, i)))
  }

  function AclItems(entity: Name, ports: seq<Name>, args: AclArgs, perPort: nat): seq<seq<Cmd>> {
    seq(|ports|, i requires 0 <= i < |ports| => AclCmds(entity, ports[i], args, perPort))
  }

  lemma DeliveredChunks(sent: seq<Script>, via: InstallMethod, items: seq<seq<Cmd>>, batch: int)
    ensures Delivered(sent + BatchScripts(via, Chunks(items, BatchSize(batch)))) == Delivered(sent) + Flatten(items)
  {
    var chunks := Chunks(items, BatchSize(batch));
    DeliveredConcat(sent, BatchScripts(via, chunks));
    DeliveredScripts(via, chunks);
    ChunksKeepOrder(items, BatchSize(batch));
  }

  class Scenario {
    const via: InstallMethod
    const socket: Option<nat>
    var nbctl: NbCtl?   // the entry of the client cache, once there is one

    constructor (via: InstallMethod, socket: Option<nat>)
      ensures nbctl == null && this.via == via
    {
      this.via, this.socket, nbctl := via, socket, null;
    }

    /** No operation in progress: batch mode off and nothing waiting. */
    ghost predicate Quiet()
      reads this, nbctl
    {
      via != OtherMethod && (nbctl != null ==> nbctl.Quiet())
    }

    ghost function Wire(): seq<Script>
      reads this, nbctl
    {
      if nbctl == null then [] else nbctl.wire
    }

    /** The cache never replaces a client. */
    twostate predicate SameClient()
      reads this
    {
      if old(nbctl) != null then nbctl == old(nbctl) else nbctl == null || fresh(nbctl)
    }

    /** A quiet operation that sends exactly these invocations ... */
    twostate predicate Invokes(batches: seq<seq<Cmd>>)
      reads this, nbctl
    {
      Quiet() && SameClient() && Wire() == old(Wire()) + BatchScripts(via, batches)
    }

    /** ... or exactly these commands, however cut. */
    twostate predicate Sends(cmds: seq<Cmd>)
      reads this, nbctl
    {
      Quiet() && SameClient() && Delivered(Wire()) == old(Delivered(Wire())) + cmds
    }

    /** _get_ovn_controller: the cached client, configured; whatever it holds back it keeps. */
    method GetOvnController() returns (c: NbCtl)
      modifies this, nbctl
      ensures SameClient() && c == nbctl && c.sandboxed && c.via == via && c.socket == socket
      ensures old(nbctl) != null ==>
                c.batchMode == old(nbctl.batchMode) && c.cmds == old(nbctl.cmds) && c.wire == old(nbctl.wire)
      ensures old(nbctl) == null ==> c.Quiet() && c.wire == []
      ensures old(Quiet()) ==> c.Ready() && !c.batchMode && c.Pending() == []
      ensures Wire() == old(Wire())
    {
      if nbctl == null {
        nbctl := new NbCtl();
      }
      c := nbctl;
      c.SetSandbox(via);
      c.SetDaemonSocket(socket);
    }

    /** Fetch the client and set its mode, as every operation begins ... */
    method Begin(batch: bool) returns (c: NbCtl)
      requires Quiet()
      modifies this, nbctl
      ensures SameClient() && c == nbctl && c.Ready() && c.batchMode == batch
      ensures c.Issued() == old(Delivered(Wire()))
    {
      c := GetOvnController();
      c.EnableBatchMode(batch);
    }

    /** ... and flush it and leave batch mode, as most of them end. */
    method End(c: NbCtl)
      requires c == nbctl && c.Ready() && via != OtherMethod
      modifies c`cmds, c`wire, c`batchMode
      ensures Quiet() && Delivered(Wire()) == old(c.Issued())
    {
      c.FlushReady();
      c.EnableBatchMode(false);
    }

    // ---- the skeleton of the batched loops

    method BeginBatch(ghost items: seq<seq<Cmd>>, batch: int) returns (c: NbCtl)
      requires Quiet()
      modifies this, nbctl
      ensures SameClient() && c == nbctl && c.Ready() && c.batchMode && c.via == via
      ensures c.Buffer() == [] && c.Pending() == [] && c.wire == old(Wire()) + BatchScripts(via, [])
      ensures LoopAt(items, 0, batch, batch, [], c.Pending())
    {
      c := GetOvnController();
      c.EnableBatchMode(true);
      LoopStart(items, batch);
    }

    /** `flush_count -= 1; if flush_count < 1: flush, start over`. */
    method CountedFlush(c: NbCtl, batch: int, flushCount: int, ghost items: seq<seq<Cmd>>, ghost i: nat,
                        ghost before: seq<Script>, ghost out: seq<seq<Cmd>>, ghost waiting: seq<Cmd>)
      returns (next: int, ghost out': seq<seq<Cmd>>)
      requires c.Ready() && c.batchMode && i < |items| && LoopAt(items, i, batch, flushCount, out, waiting)
      requires c.Pending() == waiting + items[i] && c.wire == before + BatchScripts(c.via, out)
      modifies c`cmds, c`wire
      ensures c.Ready() && LoopAt(items, i + 1, batch, next, out', c.Pending())
      ensures c.wire == before + BatchScripts(c.via, out')
    {
      next, out' := flushCount - 1, out;
      LoopStep(items, i, batch, flushCount, out, waiting);
      if next < 1 {
        out' := out + Sent(c.Pending());
        BatchScriptsConcat(c.via, out, Sent(c.Pending()));
        c.FlushReady();
        next := batch;
      }
    }

    method EndBatch(c: NbCtl, batch: int, ghost flushCount: int, ghost items: seq<seq<Cmd>>,
                    ghost before: seq<Script>, ghost out: seq<seq<Cmd>>)
      requires c.Ready() && c.batchMode && LoopAt(items, |items|, batch, flushCount, out, c.Pending())
      requires c.wire == before + BatchScripts(c.via, out)
      modifies c`cmds, c`wire, c`batchMode
      ensures c.Quiet() && c.wire == before + BatchScripts(c.via, Chunks(items, BatchSize(batch)))
      ensures Delivered(c.wire) == Delivered(before) + Flatten(items)
    {
      hide LoopAt, Delivered, BatchScripts, Chunks, Flatten, Waiting, AllFragments, Sent;
      DeliveredChunks(before, c.via, items, batch);
      LoopEnd(items, batch, flushCount, out, c.Pending());
      BatchScriptsConcat(c.via, out, Sent(c.Pending()));
      c.FlushReady();
      c.EnableBatchMode(false);
    }

    /** The loops that flush after every item. */
    method FlushItem(c: NbCtl, ghost items: seq<seq<Cmd>>, ghost i: nat, ghost before: seq<Script>,
                     ghost out: seq<seq<Cmd>>)
      returns (ghost out': seq<seq<Cmd>>)
      requires c.Ready() && i < |items| && c.Pending() == items[i]
      requires LoopAt(items, i, 1, 1, out, []) && c.wire == before + BatchScripts(c.via, out)
      modifies c`cmds, c`wire
      ensures c.Ready() && c.Buffer() == [] && c.Pending() == []
      ensures LoopAt(items, i + 1, 1, 1, out', []) && c.wire == before + BatchScripts(c.via, out')
    {
      out' := out + Sent(items[i]);
      LoopStep(items, i, 1, 1, out, []);
      assert [] + items[i] == items[i];
      BatchScriptsConcat(c.via, out, Sent(items[i]));
      c.FlushReady();
    }

    lemma EndItems(items: seq<seq<Cmd>>, out: seq<seq<Cmd>>)
      requires LoopAt(items, |items|, 1, 1, out, [])
      ensures out == Chunks(items, 1)
    {
      LoopEnd(items, 1, 1, out, []);
      assert out + Sent([]) == out;
    }

    /** lswitch_add */
    method NamedLswitchAdd(c: NbCtl, name: Name, settings: Settings)
      requires c.Ready() && c.batchMode
      modifies c`cmds, c`wire
      ensures c.Ready() && c.wire == old(c.wire)
      ensures c.Pending() == old(c.Pending()) + ([LsAdd(name)] + ConfigCmds(name, settings))
    {
      c.Queue(LsAdd(name));
      ghost var cmds := ConfigCmds(name, settings);
      for i := 0 to |settings|
        invariant c.Ready() && c.wire == old(c.wire)
        invariant c.Pending() == old(c.Pending()) + ([LsAdd(name)] + cmds[..i])
      {
        c.Queue(SetSwitchConfig(name, settings[i].0, settings[i].1));
        assert cmds[..i + 1] == cmds[..i] + [cmds[i]];
      }
      assert cmds[..|settings|] == cmds;
    }

    method LswitchAdd(c: NbCtl, net: Cidr, settings: Settings) returns (sw: Lswitch)
      requires c.Ready() && c.batchMode
      modifies c`cmds, c`wire
      ensures c.Ready() && c.wire == old(c.wire) && c.Pending() == old(c.Pending()) + SwitchCmds(net, settings)
      ensures sw == Lswitch(LSwitch(net), net)
    {
      sw := Lswitch(LSwitch(net), net);
      NamedLswitchAdd(c, sw.name, settings);
    }

    /** _create_lswitches for a start CIDR; running off the address space raises mid-way. */
    method CreateLswitches(start: Cidr, amount: nat, batch: int, settings: Settings)
      returns (r: Result<seq<Lswitch>>)
      requires Quiet() && start.Valid()
      modifies this, nbctl
      ensures r.Success? <==> Runs(start, amount)
      ensures SameClient()
      ensures r.Success? ==> r.value == Lswitches(start, amount)
      ensures r.Success? ==> Invokes(Chunks(SwitchItems(start, amount, settings), BatchSize(batch)))
      ensures r.Success? ==> Sends(Flatten(SwitchItems(start, amount, settings)))
      ensures r.Failure? ==> nbctl != null && nbctl.batchMode
    {
      hide LoopAt, Delivered, BatchScripts, Chunks, Flatten, Waiting, AllFragments;
      ghost var items := SwitchItems(start, amount, settings);
      var c := BeginBatch(items, batch);
      var flushCount, lswitches := batch, [];
      ghost var out := [];
      for i := 0 to amount
        invariant c == nbctl && SameClient() && c.Ready() && c.batchMode && c.via == via
        invariant c.wire == old(Wire()) + BatchScripts(via, out)
        invariant LoopAt(items, i, batch, flushCount, out, c.Pending())
        invariant lswitches == Lswitches(start, i)
        invariant Runs(start, i)
      {
        RunsStep(start, i);
        var cidr := start.Next(i);
        if cidr.None? {
          if Runs(start, amount) {
            RunsPrefix(start, i + 1, amount);
          }
          return Failure(AddressOverflow);
        }
        ghost var waiting := c.Pending();
        var sw := LswitchAdd(c, cidr.value, settings);
        lswitches := lswitches + [sw];
        flushCount, out := CountedFlush(c, batch, flushCount, items, i, old(Wire()), out, waiting);
      }
      EndBatch(c, batch, flushCount, items, old(Wire()), out);
      return Success(lswitches);
    }

    /** _create_lswitches without a start CIDR: random names, numbered from `first`. */
    method CreateRandomLswitches(first: nat, amount: nat, batch: int, settings: Settings) returns (switches: seq<Name>)
      requires Quiet()
      modifies this, nbctl
      ensures switches == seq(amount, i requires 0 <= i < amount => Random(first + i))
      ensures Invokes(Chunks(RandomSwitchItems(first, amount, settings), BatchSize(batch)))
      ensures Sends(Flatten(RandomSwitchItems(first, amount, settings)))
    {
      hide LoopAt, Delivered, BatchScripts, Chunks, Flatten, Waiting, AllFragments;
      ghost var items := RandomSwitchItems(first, amount, settings);
      var c := BeginBatch(items, batch);
      var flushCount := batch;
      switches := [];
      ghost var out := [];
      for i := 0 to amount
        invariant c == nbctl && SameClient() && c.Ready() && c.batchMode && c.via == via
        invariant c.wire == old(Wire()) + BatchScripts(via, out)
        invariant LoopAt(items, i, batch, flushCount, out, c.Pending())
        invariant switches == seq(i, k requires 0 <= k < i => Random(first + k))
      {
        ghost var waiting := c.Pending();
        NamedLswitchAdd(c, Random(first + i), settings);
        switches := switches + [Random(first + i)];
        flushCount, out := CountedFlush(c, batch, flushCount, items, i, old(Wire()), out, waiting);
      }
      EndBatch(c, batch, flushCount, items, old(Wire()), out);
    }

    /** _create_routers; the random names are numbered from `first`. */
    method CreateRouters(first: nat, amount: nat, batch: int) returns (routers: seq<Name>)
      requires Quiet()
      modifies this, nbctl
      ensures routers == seq(amount, i requires 0 <= i < amount => Random(first + i))
      ensures Invokes(Chunks(RouterItems(first, amount), BatchSize(batch)))
      ensures Sends(Flatten(RouterItems(first, amount)))
    {
      hide LoopAt, Delivered, BatchScripts, Chunks, Flatten, Waiting, AllFragments;
      ghost var items := RouterItems(first, amount);
      var c := BeginBatch(items, batch);
      var flushCount := batch;
      routers := [];
      ghost var out := [];
      for i := 0 to amount
        invariant c == nbctl && SameClient() && c.Ready() && c.batchMode && c.via == via
        invariant c.wire == old(Wire()) + BatchScripts(via, out)
        invariant LoopAt(items, i, batch, flushCount, out, c.Pending())
        invariant routers == seq(i, k requires 0 <= k < i => Random(first + k))
      {
        ghost var waiting := c.Pending();
        c.Queue(LrAdd(Random(first + i)));
        routers := routers + [Random(first + i)];
        flushCount, out := CountedFlush(c, batch, flushCount, items, i, old(Wire()), out, waiting);
      }
      EndBatch(c, batch, flushCount, items, old(Wire()), out);
    }

    method AddPhynetPort(c: NbCtl, switch: Name, physnet: string)
      requires c.Ready() && c.batchMode
      modifies c`cmds, c`wire
      ensures c.Ready() && c.wire == old(c.wire) && c.Pending() == old(c.Pending()) + PhynetCmds(switch, physnet)
    {
      var port := Provnet(switch);
      c.Queue(LspAdd(switch, port));
      c.Queue(LspSetAddresses(port, Unknown));
      c.Queue(LspSetLocalnet(port));
      c.Queue(LspSetPhysnet(port, physnet));
    }

    /** _create_phynet: a localnet port on each switch. */
    method CreatePhynet(switches: seq<Name>, physnet: string, batch: int)
      requires Quiet()
      modifies this, nbctl
      ensures Invokes(Chunks(PhynetItems(switches, physnet), BatchSize(batch)))
      ensures Sends(Flatten(PhynetItems(switches, physnet)))
    {
      hide LoopAt, Delivered, BatchScripts, Chunks, Flatten, Waiting, AllFragments;
      ghost var items := PhynetItems(switches, physnet);
      var c := BeginBatch(items, batch);
      var flushCount := batch;
      ghost var out := [];
      for i := 0 to |switches|
        invariant c == nbctl && SameClient() && c.Ready() && c.batchMode && c.via == via
        invariant c.wire == old(Wire()) + BatchScripts(via, out)
        invariant LoopAt(items, i, batch, flushCount, out, c.Pending())
      {
        ghost var waiting := c.Pending();
        AddPhynetPort(c, switches[i], physnet);
        flushCount, out := CountedFlush(c, batch, flushCount, items, i, old(Wire()), out, waiting);
      }
      EndBatch(c, batch, flushCount, items, old(Wire()), out);
    }

    method AddPort(c: NbCtl, sw: Lswitch, ip: nat, extGw: Option<int>, security: bool) returns (port: Lport)
      requires c.Ready() && c.batchMode
      modifies c`cmds, c`wire
      ensures c.Ready() && c.wire == old(c.wire) && c.Pending() == old(c.Pending()) + PortCmds(sw.name, ip, security)
      ensures port == Lport(Lp(ip), ip, sw.cidr.Gateway(1), extGw)
    {
      port := Lport(Lp(ip), ip, sw.cidr.Gateway(1), extGw);
      c.Queue(LspAdd(sw.name, port.name));
      c.Queue(LspSetAddresses(port.name, Ip(ip)));
      if security {
        c.Queue(LspSetPortSecurity(port.name));
      }
    }

    method CreatePortWindow(sw: Lswitch, amount: nat, shift: nat, extGw: Option<int>, batch: int, security: bool)
      returns (lports: seq<Lport>)
      requires Quiet()
      modifies this, nbctl
      ensures lports == Ports(sw, shift, amount, extGw)
      ensures Invokes(Chunks(PortItems(sw.name, sw.cidr.ip + shift, amount, security), BatchSize(batch)))
      ensures Sends(Flatten(PortItems(sw.name, sw.cidr.ip + shift, amount, security)))
    {
      hide LoopAt, Delivered, BatchScripts, Chunks, Flatten, Waiting, AllFragments;
      ghost var items := PortItems(sw.name, sw.cidr.ip + shift, amount, security);
      var c := BeginBatch(items, batch);
      var flushCount := batch;
      lports := [];
      ghost var out := [];
      for i := 0 to amount
        invariant c == nbctl && SameClient() && c.Ready() && c.batchMode && c.via == via
        invariant c.wire == old(Wire()) + BatchScripts(via, out)
        invariant LoopAt(items, i, batch, flushCount, out, c.Pending())
        invariant lports == Ports(sw, shift, i, extGw)
      {
        ghost var waiting := c.Pending();
        var lport := AddPort(c, sw, sw.cidr.ip + shift + i, extGw, security);
        PortsSnoc(sw, shift, i, extGw);
        lports := lports + [lport];
        flushCount, out := CountedFlush(c, batch, flushCount, items, i, old(Wire()), out, waiting);
      }
      EndBatch(c, batch, flushCount, items, old(Wire()), out);
    }

    /** _create_switch_lports: a window of addresses behind the switch's own, or an exception. */
    method CreateSwitchLports(sw: Lswitch, amount: nat, shift: nat, ext: Option<Cidr>, batch: int, security: bool)
      returns (r: Result<seq<Lport>>)
      requires Quiet() && sw.cidr.Valid()
      modifies this, nbctl
      ensures r.Success? <==> WindowFits(sw.cidr, shift, amount) && (ext.Some? && amount > 0 ==> ext.value.Gateway(2) >= 0)
      ensures r.Success? ==> r.value == Ports(sw, shift, amount, ExtGateway(ext))
      ensures r.Success? ==> Invokes(Chunks(PortItems(sw.name, sw.cidr.ip + shift, amount, security), BatchSize(batch)))
      ensures r.Success? ==> Sends(Flatten(PortItems(sw.name, sw.cidr.ip + shift, amount, security)))
      ensures r.Failure? ==> SameClient() && Wire() == old(Wire())
      ensures r.Failure? && r.error != BadAddress ==> Quiet()
      ensures r.Failure? && r.error == BadAddress ==> nbctl != null && nbctl.batchMode
    {
      var end := sw.cidr.ip + amount + shift;
      if !sw.cidr.Contains(end) {
        return Failure(if end < IPV4_END then NetworkTooSmall else AddressOverflow);
      }
      if amount > 0 && ext.Some? && ext.value.Gateway(2) < 0 {
        var c := BeginBatch([], batch);   // the loop raises with batch mode on
        return Failure(BadAddress);
      }
      var lports := CreatePortWindow(sw, amount, shift, ExtGateway(ext), batch, security);
      return Success(lports);
    }

    method QueueAcls(c: NbCtl, entity: Name, port: Name, args: AclArgs, perPort: nat)
      requires c.Ready() && c.batchMode && c.Pending() == []
      modifies c`cmds, c`wire
      ensures c.Ready() && c.wire == old(c.wire) && c.Pending() == AclCmds(entity, port, args, perPort)
    {
      ghost var cmds := AclCmds(entity, port, args, perPort);
      for k := 0 to perPort
        invariant c.Ready() && c.Pending() == cmds[..k] && c.wire == old(c.wire)
      {
        c.Queue(AclAdd(AclOf(entity, port, args, k)));
        assert cmds[..k + 1] == cmds[..k] + [cmds[k]];
      }
      assert cmds[..perPort] == cmds;
    }

    /** _create_acl: the rules of one port at a time. */
    method CreateAcl(entity: Name, ports: seq<Name>, args: AclArgs, perPort: nat)
      requires Quiet()
      modifies this, nbctl
      ensures Invokes(Chunks(AclItems(entity, ports, args, perPort), 1))
      ensures Sends(Flatten(AclItems(entity, ports, args, perPort)))
    {
      hide LoopAt, Delivered, BatchScripts, Chunks, Flatten, Waiting, AllFragments;
      ghost var items := AclItems(entity, ports, args, perPort);
      var c := BeginBatch(items, 1);
      ghost var out := [];
      for i := 0 to |ports|
        invariant c == nbctl && SameClient() && c.Ready() && c.batchMode && c.via == via
        invariant c.wire == old(Wire()) + BatchScripts(via, out)
        invariant LoopAt(items, i, 1, 1, out, []) && c.Buffer() == [] && c.Pending() == []
      {
        QueueAcls(c, entity, ports[i], args, perPort);
        out := FlushItem(c, items, i, old(Wire()), out);
      }
      EndItems(items, out);
      DeliveredChunks(old(Wire()), via, items, 1);
      c.EnableBatchMode(false);
    }

    /** _delete_acls fetches the client anew; the cache makes that the one in batch mode. */
    method DeleteAcls(switch: Name)
      requires nbctl != null && nbctl.Ready() && nbctl.batchMode && nbctl.via == via
      modifies this, nbctl
      ensures nbctl == old(nbctl) && nbctl.Ready() && nbctl.batchMode && nbctl.via == via
      ensures nbctl.wire == old(nbctl.wire) && nbctl.Pending() == old(nbctl.Pending()) + [AclDel(switch)]
    {
      var c := GetOvnController();
      c.Queue(AclDel(switch));
    }

    /** _delete_all_acls_in_lswitches: one invocation for all switches. */
    method DeleteAllAcls(switches: seq<Name>)
      requires Quiet()
      modifies this, nbctl
      ensures Invokes(Sent(seq(|switches|, i requires 0 <= i < |switches| => AclDel(switches[i]))))
    {
      hide Delivered, BatchScripts, Flatten, Sent;
      ghost var cmds := seq(|switches|, i requires 0 <= i < |switches| => AclDel(switches[i]));
      var c := GetOvnController();
      c.EnableBatchMode(true);
      for i := 0 to |switches|
        invariant c == nbctl && SameClient() && c.Ready() && c.batchMode && c.via == via
        invariant c.wire == old(Wire()) && c.Pending() == cmds[..i]
      {
        DeleteAcls(switches[i]);
        assert cmds[..i + 1] == cmds[..i] + [cmds[i]];
      }
      assert cmds[..|switches|] == cmds;
      c.FlushReady();
      c.EnableBatchMode(false);
    }

    /** A helper that runs one command outside batch mode. */
    method RunNow(cmd: Cmd)
      requires Quiet()
      modifies this, nbctl
      ensures Invokes([[cmd]]) && Sends([cmd])
    {
      var c := GetOvnController();
      c.Send(cmd);
      DeliveredBatch(old(Wire()), via, [cmd]);
    }

    /** _port_group_add_port needs the answer of its first command, so it leaves batch mode first. */
    method PortGroupAddPort(group: Name, port: Name)
      requires Quiet()
      modifies this, nbctl
      ensures Sends([GetPortUuid(port), PgAddPort(group, port)])
    {
      var c := GetOvnController();
      c.EnableBatchMode(false);
      RunNow(GetPortUuid(port));
      RunNow(PgAddPort(group, port));
    }

    /** _wait_up_port_lsp: wait for every port, flushing at 0, 400, 800, ... and at the end. */
    method WaitUpPortLsp(ports: seq<Name>, c: NbCtl)
      requires c.Ready() && c.batchMode
      modifies c`cmds, c`wire
      ensures c.Ready() && c.Buffer() == []
      ensures Delivered(c.wire) == old(c.Issued()) + WaitCmds(ports)
      ensures |Delivered(c.wire)| == |old(c.Issued())| + |ports|
      ensures forall k | 0 <= k < |ports| :: Delivered(c.wire)[|old(c.Issued())| + k] == WaitUp(ports[k])
    {
      hide Delivered, BatchScripts, Flatten, Sent, Waiting, AllFragments;
      ghost var cmds := WaitCmds(ports);
      assert c.Issued() == old(c.Issued()) + cmds[..0];
      for i := 0 to |ports|
        invariant c.Ready() && c.Issued() == old(c.Issued()) + cmds[..i]
      {
        c.Issue(WaitUp(ports[i]));
        assert cmds[..i + 1] == cmds[..i] + [cmds[i]];
        if i % 400 == 0 {
          c.FlushReady();
        }
      }
      assert cmds[..|ports|] == cmds;
      c.FlushReady();
    }

    /** _wait_up_port_sync, which the buffered commands, if any, precede. */
    method WaitUpPortSync(waitSync: string, c: NbCtl)
      requires c.Ready()
      modifies c`cmds, c`wire, c`batchMode
      ensures c.Ready() && c.batchMode == old(c.batchMode) && c.Buffer() == []
      ensures Delivered(c.wire) == old(c.Issued()) + [SyncCmd(waitSync)]
    {
      ghost var batches := Sent(c.Pending()) + [[SyncCmd(waitSync)]];
      ghost var before := c.wire;
      FlattenSent(c.Pending());
      FlattenSnoc(Sent(c.Pending()), [SyncCmd(waitSync)]);
      DeliveredScripts(c.via, batches);
      DeliveredConcat(before, BatchScripts(c.via, batches));
      c.RunFlushed(SyncCmd(waitSync));
    }

    /** _wait_up_port; the pings leave the client alone. */
    method WaitUpPort(ports: seq<Name>, waitSync: string)
      requires Quiet()
      modifies this, nbctl
      ensures Sends(UpCmds(ports, waitSync))
      ensures waitSync == "ping" ==> Delivered(Wire()) == old(Delivered(Wire()))
      ensures waitSync != "ping" ==> UpAt(Delivered(Wire()), |old(Delivered(Wire()))|, ports, waitSync)
    {
      UpIsUp(Delivered(Wire()), ports, waitSync);
      hide Delivered, BatchScripts, Flatten, Sent, WaitCmds, UpAt;
      if waitSync == "ping" {
        return;
      }
      var c := GetOvnController();
      c.EnableBatchMode(true);
      WaitUpPortLsp(ports, c);
      if waitSync != "none" {
        WaitUpPortSync(waitSync, c);
      }
      c.Flush();
      c.EnableBatchMode(false);
    }

    /** _bind_ports_and_wait, as the controller sees it: the binding itself goes to `boxes` sandboxes and
        divides by their number. */
    method BindPortsAndWait(ports: seq<Name>, boxes: nat, bind: BindArgs) returns (r: Result<()>)
      requires Quiet()
      modifies this, nbctl
      ensures r.Success? <==> bind.Known() && boxes > 0
      ensures r.Success? ==> Sends(bind.Waits(ports))
      ensures r.Success? && bind.waitUp && bind.waitSync != "ping" ==>
                UpAt(Delivered(Wire()), |old(Delivered(Wire()))|, ports, bind.waitSync)
      ensures r.Failure? ==> Sends([])
    {
      hide Delivered, UpCmds, UpAt;
      if !bind.Known() {
        return Failure(InvalidConfig);
      }
      if boxes == 0 {
        return Failure(DivisionByZero);
      }
      if bind.waitUp {
        WaitUpPort(ports, bind.waitSync);
      }
      return Success(());
    }
  }
}
