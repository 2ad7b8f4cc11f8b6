/** The buffered command client behind `ovn-nbctl` (and, but for the daemon socket, `ovn-sbctl`). */
module NbCtls {
  import opened Common
  import opened NorthDb
  import opened Batching

  datatype InstallMethod = SandboxMethod | Docker | Physical | OtherMethod

  /** One entry of the buffer, or one line of the script handed to SSH. */
  datatype Line =
    | SourceRc                   // . <sandbox>/sandbox.rc
    | Fragment(cmd: Cmd)         // " -- <cmd>": only means something inside an invocation
    | Invoke(cmds: seq<Cmd>)     // ovn-nbctl <cmd> -- <cmd> ...
    | DaemonExit                 // ovs-appctl -t <socket> exit
    | Garbled                    // an invocation with something other than commands in it

  type Script = seq<Line>

  /** The database commands a shell runs for a script. */
  function Executed(script: Script): seq<Cmd> {
    if script == [] then []
    else (if script[0].Invoke? then script[0].cmds else []) + Executed(script[1..])
  }

  /** One element per script that was sent. */
  function Batches(wire: seq<Script>): seq<seq<Cmd>> {
    seq(|wire|, i requires 0 <= i < |wire| => Executed(wire[i]))
  }

  function Delivered(wire: seq<Script>): seq<Cmd> {
    Flatten(Batches(wire))
  }

  predicate AllFragments(buf: seq<Line>) {
    forall i | 0 <= i < |buf| :: buf[i].Fragment?
  }

  /** The commands waiting in a buffer. */
  function Waiting(buf: seq<Line>): seq<Cmd> {
    if buf == [] then []
    else Waiting(buf[..|buf| - 1]) + CommandOf(buf[|buf| - 1])
  }

  function CommandOf(line: Line): seq<Cmd> {
    if line.Fragment? then [line.cmd] else []
  }

  function Prologue(via: InstallMethod): Script {
    if via == SandboxMethod then [SourceRc] else []
  }

  function ImmediateScript(sandboxed: bool, via: InstallMethod, buf: seq<Line>, cmd: Cmd): Script {
    buf + (if sandboxed then Prologue(via) + [Invoke([cmd])] else [])
  }

  function FlushScript(sandboxed: bool, via: InstallMethod, buf: seq<Line>): Script {
    if !sandboxed || via == OtherMethod then []
    else Prologue(via) + [if AllFragments(buf) then Invoke(Waiting(buf)) else Garbled]
  }

  function BatchScripts(via: InstallMethod, batches: seq<seq<Cmd>>): seq<Script> {
    seq(|batches|, i requires 0 <= i < |batches| => Prologue(via) + [Invoke(batches[i])])
  }

  lemma {:induction false} ExecutedConcat(a: Script, b: Script)
    ensures Executed(a + b) == Executed(a) + Executed(b)
  {
    if a == [] {
      assert a + b == b;
    } else {
      ExecutedConcat(a[1..], b);
      assert (a + b)[1..] == a[1..] + b;
    }
  }

  lemma WaitingSnoc(buf: seq<Line>, cmd: Cmd)
    ensures Waiting(buf + [Fragment(cmd)]) == Waiting(buf) + [cmd]
  {
    assert (buf + [Fragment(cmd)])[..|buf|] == buf;
  }

  lemma ExecutedInvocation(via: InstallMethod, cmds: seq<Cmd>)
    ensures Executed(Prologue(via) + [Invoke(cmds)]) == cmds
  {
    assert Executed([Invoke(cmds)]) == cmds + Executed([]);
    ExecutedConcat(Prologue(via), [Invoke(cmds)]);
    assert Executed([SourceRc]) == Executed([SourceRc][1..]);
  }

  lemma {:induction false} ExecutedNoInvocation(buf: seq<Line>)
    requires forall i | 0 <= i < |buf| :: !buf[i].Invoke?
    ensures Executed(buf) == []
  {
    if buf == [] {
    } else {
      ExecutedNoInvocation(buf[1..]);
    }
  }

  lemma BatchesConcat(a: seq<Script>, b: seq<Script>)
    ensures Batches(a + b) == Batches(a) + Batches(b)
  {
  }

  lemma DeliveredConcat(a: seq<Script>, b: seq<Script>)
    ensures Delivered(a + b) == Delivered(a) + Delivered(b)
  {
    BatchesConcat(a, b);
    FlattenConcat(Batches(a), Batches(b));
  }

  lemma DeliveredScripts(via: InstallMethod, batches: seq<seq<Cmd>>)
    ensures Batches(BatchScripts(via, batches)) == batches
    ensures Delivered(BatchScripts(via, batches)) == Flatten(batches)
  {
    forall i | 0 <= i < |batches| {
      ExecutedInvocation(via, batches[i]);
    }
    assert Batches(BatchScripts(via, batches)) == batches;
  }

  lemma DeliveredBatch(sent: seq<Script>, via: InstallMethod, cmds: seq<Cmd>)
    ensures Delivered(sent + BatchScripts(via, [cmds])) == Delivered(sent) + cmds
  {
    DeliveredConcat(sent, BatchScripts(via, [cmds]));
    DeliveredScripts(via, [cmds]);
    assert Flatten([cmds]) == cmds + Flatten([]);
  }

  /** Whether sandbox.rc is sourced before anything is invoked. */
  ghost predicate SourcedFirst(script: Script) {
    forall i | 0 <= i < |script| && script[i].Invoke? :: exists j :: 0 <= j < i && script[j].SourceRc?
  }

  /** Where there is a sandbox.rc every invocation comes after it, and nowhere else is it sourced. */
  lemma AllSourced(sandboxed: bool, via: InstallMethod, buf: seq<Line>, cmd: Cmd, batches: seq<seq<Cmd>>)
    requires AllFragments(buf)
    ensures via == SandboxMethod ==>
              && SourcedFirst(ImmediateScript(sandboxed, via, buf, cmd)) && SourcedFirst(FlushScript(sandboxed, via, buf))
              && forall i | 0 <= i < |batches| :: SourcedFirst(BatchScripts(via, batches)[i])
    ensures via != SandboxMethod ==>
              && SourceRc !in ImmediateScript(sandboxed, via, buf, cmd) && SourceRc !in FlushScript(sandboxed, via, buf)
              && forall i | 0 <= i < |batches| :: SourceRc !in BatchScripts(via, batches)[i]
  {
    if via == SandboxMethod && sandboxed {
      assert ImmediateScript(sandboxed, via, buf, cmd)[|buf|] == SourceRc;
      assert FlushScript(sandboxed, via, buf)[0] == SourceRc;
    }
    forall i | 0 <= i < |batches|
      ensures if via == SandboxMethod then SourcedFirst(BatchScripts(via, batches)[i]) else SourceRc !in BatchScripts(via, batches)[i]
    {
      var script := BatchScripts(via, batches)[i];
      assert script == Prologue(via) + [Invoke(batches[i])];
      if via == SandboxMethod {
        assert script[0] == SourceRc;
      }
    }
  }

  /** A command run outside batch mode takes the waiting ones with it exactly when there are none:
      what batch mode left in the buffer becomes stray lines of the script. */
  lemma ImmediateDeliversIff(sandboxed: bool, via: InstallMethod, buf: seq<Line>, cmd: Cmd)
    requires forall i | 0 <= i < |buf| :: buf[i].Fragment? || buf[i].SourceRc?
    ensures Executed(ImmediateScript(sandboxed, via, buf, cmd)) == Waiting(buf) + [cmd]
            <==> sandboxed && Waiting(buf) == []
  {
    ExecutedNoInvocation(buf);
    if sandboxed {
      ExecutedInvocation(via, [cmd]);
      ExecutedConcat(buf, Prologue(via) + [Invoke([cmd])]);
    } else {
      assert buf + [] == buf;
    }
  }

  /** A flush delivers what is waiting exactly when a sandbox is set, the install method is known
      and nothing but commands got into the buffer. */
  lemma FlushDeliversIff(sandboxed: bool, via: InstallMethod, buf: seq<Line>)
    requires Waiting(buf) != []
    ensures Executed(FlushScript(sandboxed, via, buf)) == Waiting(buf)
            <==> sandboxed && via != OtherMethod && AllFragments(buf)
  {
    if sandboxed && via != OtherMethod {
      if AllFragments(buf) {
        ExecutedInvocation(via, Waiting(buf));
      } else {
        ExecutedNoInvocation(Prologue(via) + [Garbled]);
      }
    }
  }

  lemma BatchScriptsConcat(via: InstallMethod, a: seq<seq<Cmd>>, b: seq<seq<Cmd>>)
    ensures BatchScripts(via, a + b) == BatchScripts(via, a) + BatchScripts(via, b)
  {
  }

  class NbCtl {
    var sandboxed: bool
    var via: InstallMethod
    var socket: Option<nat>
    var batchMode: bool
    var cmds: Option<seq<Line>>
    ghost var wire: seq<Script>   // every script SSH has run

    constructor ()
      ensures !sandboxed && socket == None && !batchMode && cmds == None && wire == []
    {
      sandboxed, via, socket, batchMode, cmds := false, OtherMethod, None, false, None;
      wire := [];
    }

    function Buffer(): seq<Line>
      reads this
    {
      if cmds.Some? then cmds.value else []
    }

    ghost function Pending(): seq<Cmd>
      reads this
    {
      Waiting(Buffer())
    }

    /** Ready to issue: outside batch mode nothing is waiting, and only commands ever wait. */
    ghost predicate Ready()
      reads this
    {
      sandboxed && via != OtherMethod && AllFragments(Buffer()) && (!batchMode ==> Buffer() == [])
    }

    /** Between two controller operations. */
    ghost predicate Quiet()
      reads this
    {
      !batchMode && Buffer() == []
    }

    /** Everything handed to the client so far, sent or waiting. */
    ghost function Issued(): seq<Cmd>
      reads this
    {
      Delivered(wire) + Pending()
    }

    method EnableBatchMode(value: bool)
      modifies `batchMode
      ensures batchMode == value
    {
      batchMode := value;
    }

    method SetSandbox(m: InstallMethod)
      modifies `sandboxed, `via
      ensures sandboxed && via == m
    {
      sandboxed, via := true, m;
    }

    method SetDaemonSocket(s: Option<nat>)
      modifies `socket
      ensures socket == s
    {
      socket := s;
    }

    method Run(cmd: Cmd)
      modifies `cmds, `wire
      ensures batchMode ==> cmds == Some(old(Buffer()) + [Fragment(cmd)]) && wire == old(wire)
      ensures !batchMode ==>
                cmds == None && wire == old(wire) + [ImmediateScript(sandboxed, via, old(Buffer()), cmd)]
    {
      cmds := Some(Buffer());
      if batchMode {
        cmds := Some(cmds.value + [Fragment(cmd)]);
        return;
      }
      if sandboxed {
        if via == SandboxMethod {
          cmds := Some(cmds.value + [SourceRc]);
        }
        cmds := Some(cmds.value + [Invoke([cmd])]);
      }
      assert cmds.value == ImmediateScript(sandboxed, via, old(Buffer()), cmd);
      wire := wire + [cmds.value];
      cmds := None;
    }

    /** The command methods (`lrouter_add`, `acl_add`, ...) in batch mode: the command waits. */
    method Queue(cmd: Cmd)
      requires Ready() && batchMode
      modifies `cmds, `wire
      ensures Ready() && wire == old(wire) && Pending() == old(Pending()) + [cmd]
    {
      WaitingSnoc(Buffer(), cmd);
      Run(cmd);
    }

    /** ... outside batch mode: it is an invocation of its own. */
    method Send(cmd: Cmd)
      requires Ready() && !batchMode
      modifies `cmds, `wire
      ensures Ready() && Pending() == [] && wire == old(wire) + BatchScripts(via, [[cmd]])
    {
      assert ImmediateScript(sandboxed, via, [], cmd) == Prologue(via) + [Invoke([cmd])];
      Run(cmd);
      assert [Prologue(via) + [Invoke([cmd])]] == BatchScripts(via, [[cmd]]);
    }

    /** ... in either mode: it is issued, now or with the next flush. */
    method Issue(cmd: Cmd)
      requires Ready()
      modifies `cmds, `wire
      ensures Ready() && Issued() == old(Issued()) + [cmd]
    {
      if batchMode {
        Queue(cmd);
      } else {
        DeliveredBatch(wire, via, [cmd]);
        Send(cmd);
      }
    }

    /** A straight line of command methods. */
    method IssueAll(list: seq<Cmd>)
      requires Ready()
      modifies `cmds, `wire
      ensures Ready() && Issued() == old(Issued()) + list
    {
      for i := 0 to |list|
        invariant Ready() && Issued() == old(Issued()) + list[..i]
      {
        Issue(list[i]);
        assert list[..i + 1] == list[..i] + [list[i]];
      }
      assert list[..|list|] == list;
    }

    /** `run("exit")`, on the branch the daemon is stopped through. */
    method RunExit()
      modifies `cmds, `wire
      ensures batchMode ==> wire == old(wire) && |Buffer()| == |old(Buffer())| + 1
      ensures !batchMode && sandboxed && socket == None ==>
                wire == old(wire) && cmds == Some(old(Buffer()) + Prologue(via))
      ensures !batchMode && !(sandboxed && socket == None) ==>
                cmds == None && |wire| == |old(wire)| + 1 && wire[..|old(wire)|] == old(wire)
      ensures old(Ready()) && !batchMode ==> Delivered(wire) == old(Delivered(wire))
    {
      cmds := Some(Buffer());
      if batchMode {
        cmds := Some(cmds.value + [Garbled]);
        return;
      }
      if sandboxed {
        if via == SandboxMethod {
          cmds := Some(cmds.value + [SourceRc]);
        }
        assert cmds.value == old(Buffer()) + Prologue(via);
        if socket == None {
          return;
        }
        cmds := Some(cmds.value + [DaemonExit]);
      }
      wire := wire + [cmds.value];
      if old(Ready()) {
        ExecutedNoInvocation(cmds.value);
        DeliveredConcat(old(wire), [cmds.value]);
        assert Batches([cmds.value]) == [[]];
        assert Flatten<Cmd>([[]]) == [] + Flatten<Cmd>([]);
      }
      cmds := None;
    }

    method Flush()
      modifies `cmds, `wire
      ensures old(Buffer()) == [] ==> wire == old(wire) && cmds == old(cmds)
      ensures old(Buffer()) != [] ==>
                cmds == None && wire == old(wire) + [FlushScript(sandboxed, via, old(Buffer()))]
    {
      if cmds == None || |cmds.value| == 0 {
        return;
      }
      var script := [];
      if sandboxed {
        if via == SandboxMethod {
          script := [SourceRc];
        }
        if via != OtherMethod {
          script := script + [if AllFragments(cmds.value) then Invoke(Waiting(cmds.value)) else Garbled];
        }
      }
      wire := wire + [script];
      cmds := None;
    }

    /** A flush of a client that is ready: one invocation, unless nothing is waiting. */
    method FlushReady()
      requires Ready()
      modifies `cmds, `wire
      ensures Ready() && Buffer() == [] && Pending() == []
      ensures wire == old(wire) + BatchScripts(via, Sent(old(Pending()))) && Issued() == old(Issued())
    {
      ghost var cmds := Pending();
      if Buffer() == [] {
        assert wire + BatchScripts(via, Sent([])) == wire;
      } else {
        assert Buffer()[|Buffer()| - 1].Fragment?;
        assert [Prologue(via) + [Invoke(cmds)]] == BatchScripts(via, [cmds]);
        DeliveredBatch(wire, via, cmds);
      }
      Flush();
    }

    /** `sync` and `chassis_bound`: everything waiting goes first, then the command on its own, and
        the mode is what it was. */
    method RunFlushed(cmd: Cmd)
      requires Ready()
      modifies `cmds, `wire, `batchMode
      ensures batchMode == old(batchMode)
      ensures Ready() && Buffer() == []
      ensures wire == old(wire) + BatchScripts(via, Sent(old(Pending())) + [[cmd]])
    {
      var mode := batchMode;
      ghost var pending := Pending();
      if mode {
        FlushReady();
        batchMode := false;
      } else {
        assert wire + BatchScripts(via, Sent(pending)) == wire;
      }
      Send(cmd);
      batchMode := mode;
      BatchScriptsConcat(via, Sent(pending), [[cmd]]);
    }

    method StopDaemon()
      modifies `cmds, `wire, `socket
      ensures socket == None
      // With the socket of a running daemon the client is as quiet as before ...
      ensures old(Ready()) && old(Quiet()) && old(socket).Some? ==> Quiet()
      // ... and without one it is exactly for the install methods that source no sandbox.rc.
      ensures old(Ready()) && old(Quiet()) && old(socket) == None ==> (Quiet() <==> via != SandboxMethod)
    {
      RunExit();
      socket := None;
    }
  }
}
