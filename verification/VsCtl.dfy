/** The buffered `ovs-vsctl` client, and binding ports with it. One client serves every sandbox of a
    farm: it is retargeted, not replaced. */
module VsCtls {
  import opened Common
  import opened NbCtls

  datatype VsCmd = AddPort(port: string, internal: bool, mayExist: bool) | SetPort(port: string)
  datatype Target = InSandbox(name: string) | InContainer(container: string) | OnHost

  /** One entry of the buffer, or one line of the script handed to SSH. */
  datatype VsLine =
    | SandboxRc(name: string)                          // . <sandbox>/sandbox.rc
    | Piece(cmd: VsCmd)                                // " -- <cmd>": only means something inside an invocation
    | Ctl(container: Option<string>, cmds: seq<VsCmd>) // [docker exec <container>] ovs-vsctl <cmd> -- <cmd> ...

  datatype Done = Done(where: Target, cmd: VsCmd)

  function AllDone(where: Target, cmds: seq<VsCmd>): seq<Done> {
    seq(|cmds|, i requires 0 <= i < |cmds| => Done(where, cmds[i]))
  }

  /** What a shell does with a script, `where` being the sandbox it has sourced so far. */
  function Effect(script: seq<VsLine>, where: Target): seq<Done> {
    if script == [] then []
    else
      match script[0]
      case SandboxRc(name) => Effect(script[1..], InSandbox(name))
      case Piece(_) => Effect(script[1..], where)
      case Ctl(container, cmds) =>
        AllDone(if container.Some? then InContainer(container.value) else where, cmds) + Effect(script[1..], where)
  }

  function Pieces(buf: seq<VsLine>): seq<VsCmd> {
    if buf == [] then []
    else Pieces(buf[..|buf| - 1]) + if buf[|buf| - 1].Piece? then [buf[|buf| - 1].cmd] else []
  }

  lemma PiecesSnoc(buf: seq<VsLine>, cmd: VsCmd)
    ensures Pieces(buf + [Piece(cmd)]) == Pieces(buf) + [cmd]
  {
    assert (buf + [Piece(cmd)])[..|buf|] == buf;
  }

  /** `docker exec <sandbox> ovs-vsctl <cmd>` is put together without the options. */
  function WithoutOptions(cmd: VsCmd): VsCmd {
    if cmd.AddPort? then cmd.(mayExist := false) else cmd
  }

  /** The script of one command outside batch mode. */
  function RunScript(via: InstallMethod, sandbox: string, container: Option<string>, cmd: VsCmd): seq<VsLine> {
    (match via
     case SandboxMethod => [SandboxRc(sandbox)]
     case Docker => [Ctl(Some(sandbox), [WithoutOptions(cmd)])]
     case _ => [])
    + if via == Docker then [] else [Ctl(container, [cmd])]
  }

  function FlushLines(via: InstallMethod, sandbox: string, buf: seq<VsLine>): seq<VsLine> {
    if via == SandboxMethod then [SandboxRc(sandbox), Ctl(None, Pieces(buf))] else []
  }

  /** The commands that bind a port. */
  function BindCmds(port: string, internal: bool): seq<VsCmd> {
    [AddPort(port, internal, true), SetPort(port)]
  }

  function BindAllCmds(ports: seq<string>, internal: bool): seq<VsCmd> {
    if ports == [] then [] else BindAllCmds(ports[..|ports| - 1], internal) + BindCmds(ports[|ports| - 1], internal)
  }

  /** Where a sandbox's switch is. */
  function Home(via: InstallMethod, sandbox: string, container: Option<string>): Target {
    if via == Docker then InContainer(sandbox)
    else if container.Some? then InContainer(container.value)
    else if via == SandboxMethod then InSandbox(sandbox)
    else OnHost
  }

  function RanOn(via: InstallMethod, sandbox: string, container: Option<string>, cmds: seq<VsCmd>): seq<Done> {
    seq(|cmds|, i requires 0 <= i < |cmds| =>
          Done(Home(via, sandbox, container), if via == Docker then WithoutOptions(cmds[i]) else cmds[i]))
  }

  lemma CtlEffect(container: Option<string>, cmds: seq<VsCmd>, where: Target)
    ensures Effect([Ctl(container, cmds)], where)
            == AllDone(if container.Some? then InContainer(container.value) else where, cmds)
  {
    assert [Ctl(container, cmds)][1..] == [];
  }

  lemma RunEffect(via: InstallMethod, sandbox: string, container: Option<string>, cmd: VsCmd)
    ensures Effect(RunScript(via, sandbox, container, cmd), OnHost) == RanOn(via, sandbox, container, [cmd])
  {
    var script := RunScript(via, sandbox, container, cmd);
    if via == SandboxMethod {
      assert script[1..] == [Ctl(container, [cmd])];
      CtlEffect(container, [cmd], InSandbox(sandbox));
    } else if via == Docker {
      CtlEffect(Some(sandbox), [WithoutOptions(cmd)], OnHost);
      assert script == [Ctl(Some(sandbox), [WithoutOptions(cmd)])];
    } else {
      CtlEffect(container, [cmd], OnHost);
      assert script == [Ctl(container, [cmd])];
    }
  }

  lemma {:induction false} PiecesDoNothing(buf: seq<VsLine>, script: seq<VsLine>, where: Target)
    requires forall i | 0 <= i < |buf| :: buf[i].Piece?
    ensures Effect(buf + script, where) == Effect(script, where)
  {
    if buf == [] {
      assert buf + script == script;
    } else {
      PiecesDoNothing(buf[1..], script, where);
      assert (buf + script)[1..] == buf[1..] + script;
    }
  }

  lemma FlushEffect(sandbox: string, buf: seq<VsLine>)
    ensures Effect(FlushLines(SandboxMethod, sandbox, buf), OnHost) == AllDone(InSandbox(sandbox), Pieces(buf))
  {
    var script := FlushLines(SandboxMethod, sandbox, buf);
    assert script[1..] == [Ctl(None, Pieces(buf))];
    CtlEffect(None, Pieces(buf), InSandbox(sandbox));
  }

  lemma RanConcat(via: InstallMethod, sandbox: string, container: Option<string>, a: seq<VsCmd>, b: seq<VsCmd>)
    ensures RanOn(via, sandbox, container, a + b)
            == RanOn(via, sandbox, container, a) + RanOn(via, sandbox, container, b)
  {
  }

  /** The part of a farm's sandboxes one call binds: its name, its container, its ports. */
  datatype Share = Share(sandbox: string, container: Option<string>, ports: seq<string>)

  /** What binding one share does: nothing where `flush` has no branch for the install method. */
  function BindEffect(via: InstallMethod, share: Share, internal: bool): seq<Done> {
    if via == SandboxMethod || via == Docker || share.container.Some? then
      RanOn(via, share.sandbox, share.container, BindAllCmds(share.ports, internal))
    else []
  }

  function BindEffects(via: InstallMethod, shares: seq<Share>, internal: bool): seq<Done> {
    if shares == [] then []
    else BindEffects(via, shares[..|shares| - 1], internal) + BindEffect(via, shares[|shares| - 1], internal)
  }

  class VsCtl {
    const via: InstallMethod
    var sandbox: string
    var container: Option<string>
    var batchMode: bool
    var cmds: Option<seq<VsLine>>
    var done: seq<Done>   // the effect of the scripts sent so far

    constructor (via: InstallMethod)
      ensures this.via == via && Quiet() && done == []
    {
      this.via := via;
      sandbox, container, batchMode, cmds, done := "", None, false, None, [];
    }

    predicate Quiet()
      reads this
    {
      !batchMode && cmds == None
    }

    predicate Batching()
      reads this
    {
      batchMode && via != Docker && container == None
    }

    /** The commands given to `run` since `was` and not yet executed, or gone. */
    ghost predicate Holds(was: seq<Done>, given: seq<VsCmd>)
      reads this
    {
      if Batching() then done == was && Pieces(if cmds == None then [] else cmds.value) == given
      else cmds == None && done == was + RanOn(via, sandbox, container, given)
    }

    /** The buffer holds nothing but pieces. */
    predicate Valid()
      reads this
    {
      cmds == None || forall i | 0 <= i < |cmds.value| :: cmds.value[i].Piece?
    }

    method SetSandbox(sandbox: string, container: Option<string>)
      modifies this`sandbox, this`container
      ensures this.sandbox == sandbox && this.container == container
    {
      this.sandbox, this.container := sandbox, container;
    }

    method Send(script: seq<VsLine>)
      modifies this`done
      ensures done == old(done) + Effect(script, OnHost)
    {
      done := done + Effect(script, OnHost);
    }

    /** run: docker and host containers switch batch mode off for good, and what was waiting is lost. */
    method Run(cmd: VsCmd)
      requires Valid()
      modifies this`batchMode, this`cmds, this`done
      ensures Valid() && batchMode == old(Batching())
      ensures old(Batching()) ==> cmds == Some((if old(cmds) == None then [] else old(cmds).value) + [Piece(cmd)]) && done == old(done)
      ensures !old(Batching()) ==> cmds == None && done == old(done) + RanOn(via, sandbox, container, [cmd])
    {
      var buf := if cmds == None then [] else cmds.value;
      if via == Docker || container != None {
        batchMode := false;
      }
      if batchMode {
        cmds := Some(buf + [Piece(cmd)]);
        return;
      }
      RunEffect(via, sandbox, container, cmd);
      PiecesDoNothing(buf, RunScript(via, sandbox, container, cmd), OnHost);
      Send(buf + RunScript(via, sandbox, container, cmd));
      cmds := None;
    }

    method Flush()
      modifies this`cmds, this`done
      ensures cmds == None
      ensures done == if old(cmds) == None || via != SandboxMethod then old(done)
                      else old(done) + AllDone(InSandbox(sandbox), Pieces(old(cmds).value))
    {
      if cmds == None {
        return;
      }
      FlushEffect(sandbox, cmds.value);
      Send(FlushLines(via, sandbox, cmds.value));
      cmds := None;
    }

    /** One more command, batched or not. */
    method Give(cmd: VsCmd, ghost was: seq<Done>, ghost given: seq<VsCmd>)
      requires Valid() && Holds(was, given)
      modifies this`batchMode, this`cmds, this`done
      ensures Valid() && Holds(was, given + [cmd]) && Batching() == old(Batching())
    {
      hide Pieces, RanOn, AllDone, Effect;
      PiecesSnoc(if cmds == None then [] else cmds.value, cmd);
      RanConcat(via, sandbox, container, given, [cmd]);
      Run(cmd);
    }

    /** The body of _bind_ovs_port for one sandbox. */
    method BindShare(share: Share, internal: bool)
      requires Quiet()
      modifies this
      ensures Quiet() && done == old(done) + BindEffect(via, share, internal)
    {
      SetSandbox(share.sandbox, share.container);
      batchMode := true;
      ghost var was := done;
      assert was + [] == was;
      GiveAll(share.ports, internal, was);
      BatchedEffect(share, BindAllCmds(share.ports, internal));
      hide RanOn, Pieces, Effect, AllDone, BindAllCmds;
      Flush();
      batchMode := false;
    }

    /** The commands of the ports of one sandbox. */
    method GiveAll(ports: seq<string>, internal: bool, ghost was: seq<Done>)
      requires Valid() && Holds(was, [])
      modifies this`batchMode, this`cmds, this`done
      ensures Valid() && Holds(was, BindAllCmds(ports, internal)) && Batching() == old(Batching())
    {
      hide RanOn, Pieces, Effect, AllDone, VsCtl.Holds;
      for i := 0 to |ports|
        invariant Valid() && Holds(was, BindAllCmds(ports[..i], internal)) && Batching() == old(Batching())
      {
        assert ports[..i + 1][..i] == ports[..i];
        ghost var given := BindAllCmds(ports[..i], internal);
        var add, setUp := AddPort(ports[i], internal, true), SetPort(ports[i]);
        Give(add, was, given);
        Give(setUp, was, given + [add]);
        assert given + [add] + [setUp] == given + BindCmds(ports[i], internal) == BindAllCmds(ports[..i + 1], internal);
      }
      assert ports[..|ports|] == ports;
    }

    /** _bind_ovs_port, for the sandboxes of one farm. */
    method BindShares(shares: seq<Share>, internal: bool)
      requires Quiet()
      modifies this
      ensures Quiet() && done == old(done) + BindEffects(via, shares, internal)
    {
      hide BindEffect, RanOn, BindAllCmds;
      assert old(done) + [] == old(done);
      for i := 0 to |shares|
        invariant Quiet() && done == old(done) + BindEffects(via, shares[..i], internal)
      {
        assert shares[..i + 1][..i] == shares[..i];
        BindShare(shares[i], internal);
      }
      assert shares[..|shares|] == shares;
    }
  }

  lemma BatchedEffect(share: Share, given: seq<VsCmd>)
    ensures share.container == None ==>
              RanOn(SandboxMethod, share.sandbox, share.container, given) == AllDone(InSandbox(share.sandbox), given)
  {
  }

  lemma {:induction false} BindLength(ports: seq<string>, internal: bool)
    ensures |BindAllCmds(ports, internal)| == 2 * |ports|
    ensures forall i | 0 <= i < |ports| ::
              BindAllCmds(ports, internal)[2 * i] == AddPort(ports[i], internal, true)
              && BindAllCmds(ports, internal)[2 * i + 1] == SetPort(ports[i])
  {
    if ports == [] {
    } else {
      BindLength(ports[..|ports| - 1], internal);
    }
  }

  /** Where anything is run, each port is added and then set up, in order, in the sandbox's own place: its
      docker container, the container of its host, or its sandbox directory. */
  lemma BoundAt(via: InstallMethod, share: Share, internal: bool, i: nat)
    requires i < |share.ports| && (via == SandboxMethod || via == Docker || share.container.Some?)
    ensures var done := BindEffect(via, share, internal);
            var where := if via == Docker then InContainer(share.sandbox)
                         else if share.container.Some? then InContainer(share.container.value)
                         else InSandbox(share.sandbox);
            && |done| == 2 * |share.ports|
            && done[2 * i] == Done(where, AddPort(share.ports[i], internal, via != Docker))
            && done[2 * i + 1] == Done(where, SetPort(share.ports[i]))
  {
    BindLength(share.ports, internal);
  }

  /** Every port is added to, and set up on, its own sandbox's switch, as written, exactly when the method
      is `sandbox`, or a host container forces the commands out one by one; docker loses an option, and on a
      physical host nothing is run at all. */
  lemma BoundIff(via: InstallMethod, share: Share, internal: bool)
    ensures BindEffect(via, share, internal)
            == AllDone(Home(via, share.sandbox, share.container), BindAllCmds(share.ports, internal))
            <==> share.ports == [] || via == SandboxMethod || (via != Docker && share.container.Some?)
    ensures via == Docker ==>
              forall i | 0 <= i < |BindEffect(via, share, internal)| :: !BindEffect(via, share, internal)[i].cmd.SetPort? ==>
                !BindEffect(via, share, internal)[i].cmd.mayExist
  {
    var cmds := BindAllCmds(share.ports, internal);
    BindLength(share.ports, internal);
    var wanted := AllDone(Home(via, share.sandbox, share.container), cmds);
    if share.ports != [] {
      assert cmds[2 * 0] == AddPort(share.ports[0], internal, true);
      assert wanted[0].cmd.mayExist;
    }
  }
}
