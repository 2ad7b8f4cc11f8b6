/** The buffered shell client `ovs-ssh`: unlike the command clients it never loses what waits. */
module SshConns {
  import opened Common

  /** A shell line and the container it is wrapped for. */
  datatype ShellCmd = ShellCmd(container: Option<string>, text: string)

  datatype Use = Mode(batch: bool) | Target(container: Option<string>) | Give(text: string) | Flush

  /** The lines given, each wrapped for the container set at the time. */
  function Given(uses: seq<Use>, container: Option<string>): seq<ShellCmd> {
    if uses == [] then []
    else
      match uses[0]
      case Target(c) => Given(uses[1..], c)
      case Give(text) => [ShellCmd(container, text)] + Given(uses[1..], container)
      case _ => Given(uses[1..], container)
  }

  lemma {:induction false} GivenConcat(a: seq<Use>, b: seq<Use>, container: Option<string>)
    ensures Given(a + b, container) == Given(a, container) + Given(b, Last(a, container))
  {
    if a == [] {
      assert a + b == b;
    } else {
      assert (a + b)[0] == a[0] && (a + b)[1..] == a[1..] + b;
      GivenConcat(a[1..], b, if a[0].Target? then a[0].container else container);
    }
  }

  /** The container set after the uses. */
  function Last(uses: seq<Use>, container: Option<string>): Option<string> {
    if uses == [] then container
    else Last(uses[1..], if uses[0].Target? then uses[0].container else container)
  }

  lemma {:induction false} LastSnoc(uses: seq<Use>, use: Use, container: Option<string>)
    ensures Last(uses + [use], container) == if use.Target? then use.container else Last(uses, container)
  {
    if uses != [] {
      assert (uses + [use])[0] == uses[0] && (uses + [use])[1..] == uses[1..] + [use];
      LastSnoc(uses[1..], use, if uses[0].Target? then uses[0].container else container);
    } else {
      assert [use][1..] == [];
    }
  }

  class SshConn {
    var batchMode: bool
    var container: Option<string>
    var cmds: Option<seq<ShellCmd>>
    var ran: seq<seq<ShellCmd>>   // one script per flush

    constructor ()
      ensures !batchMode && container == None && cmds == None && ran == []
    {
      batchMode, container, cmds, ran := false, None, None, [];
    }

    function Waiting(): seq<ShellCmd>
      reads this
    {
      if cmds == None then [] else cmds.value
    }

    /** What was run and what waits, in order. */
    function Issued(): seq<ShellCmd>
      reads this
    {
      Flatten(ran) + Waiting()
    }

    method FlushAll()
      modifies `cmds, `ran
      ensures cmds == None && ran == if old(cmds) == None then old(ran) else old(ran) + [old(cmds).value]
      ensures Issued() == old(Issued()) == Flatten(ran)
    {
      if cmds == None {
        return;
      }
      FlattenSnoc(ran, cmds.value);
      ran := ran + [cmds.value];
      cmds := None;
    }

    method Run(text: string)
      modifies `cmds, `ran
      ensures Issued() == old(Issued()) + [ShellCmd(container, text)]
      ensures batchMode ==> ran == old(ran)
      ensures !batchMode ==> cmds == None
    {
      ghost var line := ShellCmd(container, text);
      assert Flatten(ran) + (Waiting() + [line]) == Flatten(ran) + Waiting() + [line];
      cmds := Some(Waiting() + [ShellCmd(container, text)]);
      if batchMode {
        return;
      }
      FlushAll();
    }

    /** Any use of the client: nothing is lost, repeated or reordered, whenever it was in batch mode. */
    method UseAll(uses: seq<Use>)
      modifies this
      ensures Issued() == old(Issued()) + Given(uses, old(container)) && container == Last(uses, old(container))
      ensures uses != [] && uses[|uses| - 1].Flush? ==> Flatten(ran) == old(Issued()) + Given(uses, old(container))
    {
      hide Given, Last, Waiting;
      NoneGiven(container);
      assert old(Issued()) + [] == old(Issued()) && uses[..0] == [];
      for i := 0 to |uses|
        invariant Issued() == old(Issued()) + Given(uses[..i], old(container))
        invariant container == Last(uses[..i], old(container))
        invariant i > 0 && uses[i - 1].Flush? ==> cmds == None
      {
        assert uses[..i + 1] == uses[..i] + [uses[i]];
        GivenConcat(uses[..i], [uses[i]], old(container));
        LastSnoc(uses[..i], uses[i], old(container));
        ghost var done, next := Given(uses[..i], old(container)), Given([uses[i]], container);
        assert old(Issued()) + done + next == old(Issued()) + (done + next);
        UseOne(uses[i]);
      }
      assert uses[..|uses|] == uses;
      AllRan();
    }

    lemma AllRan()
      ensures cmds == None ==> Flatten(ran) == Issued()
    {
      assert cmds == None ==> Flatten(ran) + [] == Flatten(ran);
    }

    method UseOne(use: Use)
      modifies this
      ensures Issued() == old(Issued()) + Given([use], old(container))
      ensures container == if use.Target? then use.container else old(container)
      ensures use.Flush? ==> cmds == None
    {
      OneGiven(use, container);
      assert Issued() + [] == Issued();
      match use {
        case Mode(b) => batchMode := b;
        case Target(c) => container := c;
        case Give(text) => Run(text);
        case Flush => FlushAll();
      }
    }
  }

  lemma NoneGiven(container: Option<string>)
    ensures Given([], container) == [] && Last([], container) == container
  {
  }

  lemma OneGiven(use: Use, container: Option<string>)
    ensures Given([use], container) == if use.Give? then [ShellCmd(container, use.text)] else []
  {
    assert [use][1..] == [];
  }
}
