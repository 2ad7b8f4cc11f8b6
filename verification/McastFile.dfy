/** The input file of a multicast tester: printed by echo on one side, scanned by the C program on
    the other. Text is modelled character by character. */
module McastFiles {
  import opened Common
  import opened McastPlans

  const MAX_GROUPS: nat := 10000
  const MAX_GROUP_NAME: nat := 256
  const UINT32: nat := 0x1_0000_0000

  // ---- printing

  function Digit(d: nat): char
    requires d < 10
  {
    '0' + d as char
  }

  function Dec(n: nat): string {
    if n < 10 then [Digit(n)] else Dec(n / 10) + [Digit(n % 10)]
  }

  /** str(netaddr.IPAddress(a)) */
  function Dotted(a: nat): string {
    Dec(a / 0x100_0000 % 256) + "." + Dec(a / 0x1_0000 % 256) + "." + Dec(a / 0x100 % 256) + "." + Dec(a % 256)
  }

  function Line(s: string): string {
    s + "\n"
  }

  function GroupLines(groups: seq<nat>): string {
    if groups == [] then "" else Line(Dotted(groups[0])) + GroupLines(groups[1..])
  }

  function BlockText(load: Load): string {
    Line(Dec(load.nGroups)) + GroupLines(load.groups)
  }

  function BlocksText(loads: seq<Load>): string {
    if loads == [] then "" else BlockText(loads[0]) + BlocksText(loads[1..])
  }

  function FileText(loads: seq<Load>): string {
    Line(Dec(|loads|)) + BlocksText(loads)
  }

  /** The input files on the hosts, one per port. */
  class InputFiles {
    var text: map<string, string>

    constructor ()
      ensures text == map[]
    {
      text := map[];
    }

    /** echo s > /tmp/test-port-input */
    method EchoNew(port: string, s: string)
      modifies this
      ensures text == old(text)[port := Line(s)]
    {
      text := text[port := Line(s)];
    }

    /** echo s >> /tmp/test-port-input */
    method EchoAppend(port: string, s: string)
      requires port in text
      modifies this
      ensures text == old(text)[port := old(text)[port] + Line(s)]
    {
      text := text[port := text[port] + Line(s)];
    }

    method AppendGroups(port: string, groups: seq<nat>)
      requires port in text
      modifies this
      ensures text == old(text)[port := old(text)[port] + GroupLines(groups)]
    {
      hide Dotted, GroupLines, Line;
      LinesNone(groups);
      assert old(text)[port] + "" == old(text)[port];
      for i := 0 to |groups|
        invariant port in text && text == old(text)[port := old(text)[port] + GroupLines(groups[..i])]
      {
        LinesSnoc(groups[..i], groups[i]);
        assert groups[..i + 1] == groups[..i] + [groups[i]];
        ghost var was, line := GroupLines(groups[..i]), Line(Dotted(groups[i]));
        assert old(text)[port] + was + line == old(text)[port] + (was + line);
        EchoAppend(port, Dotted(groups[i]));
      }
      assert groups[..|groups|] == groups;
    }

    method AppendBlock(port: string, load: Load)
      requires port in text
      modifies this
      ensures text == old(text)[port := old(text)[port] + BlockText(load)]
    {
      hide Dec, GroupLines, Line;
      ghost var head, lines := Line(Dec(load.nGroups)), GroupLines(load.groups);
      assert old(text)[port] + head + lines == old(text)[port] + (head + lines);
      EchoAppend(port, Dec(load.nGroups));
      AppendGroups(port, load.groups);
    }

    /** The inner loop of _config_mcast_testers: the ports of one round, in whatever order. */
    method AppendRound(loads: map<string, Load>)
      requires forall p | p in loads :: p in text
      modifies this
      ensures text.Keys == old(text).Keys
      ensures forall p | p in loads :: text[p] == old(text)[p] + BlockText(loads[p])
      ensures forall p | p in text && p !in loads :: text[p] == old(text)[p]
    {
      hide BlockText;
      var rest := loads.Keys;
      while rest != {}
        invariant rest <= loads.Keys && text.Keys == old(text).Keys
        invariant forall p | p in loads && p !in rest :: text[p] == old(text)[p] + BlockText(loads[p])
        invariant forall p | p in text && (p !in loads || p in rest) :: text[p] == old(text)[p]
        decreases rest
      {
        var p :| p in rest;
        rest := rest - {p};
        AppendBlock(p, loads[p]);
      }
    }

    method WriteHeaders(ports: seq<string>, n: nat)
      modifies this
      ensures text.Keys == old(text).Keys + set p | p in ports
      ensures forall p | p in ports :: text[p] == Line(Dec(n))
      ensures forall p | p in old(text) && p !in ports :: text[p] == old(text)[p]
    {
      hide Line, Dec;
      for i := 0 to |ports|
        invariant text.Keys == old(text).Keys + set p | p in ports[..i]
        invariant forall p | p in ports[..i] :: text[p] == Line(Dec(n))
        invariant forall p | p in old(text) && p !in ports[..i] :: text[p] == old(text)[p]
      {
        assert ports[..i + 1] == ports[..i] + [ports[i]];
        EchoNew(ports[i], Dec(n));
      }
      assert ports[..|ports|] == ports;
    }

    /** _config_mcast_testers */
    method ConfigMcastTesters(ports: seq<string>, rounds: seq<Round>)
      requires forall t | 0 <= t < |rounds| :: rounds[t].loads.Keys == set p | p in ports
      modifies this
      ensures text.Keys == old(text).Keys + set p | p in ports
      ensures forall p | p in ports :: text[p] == FileText(LoadsOf(rounds, p))
      ensures forall p | p in old(text) && p !in ports :: text[p] == old(text)[p]
    {
      hide Dec, BlockText, BlocksText, Line;
      WriteHeaders(ports, |rounds|);
      ghost var header, head := text, Line(Dec(|rounds|));
      NoBlocks(rounds);
      assert head + "" == head;
      for t := 0 to |rounds|
        invariant text.Keys == header.Keys
        invariant forall p | p in ports :: text[p] == head + BlocksText(LoadsOf(rounds, p)[..t])
        invariant forall p | p in header && p !in ports :: text[p] == header[p]
      {
        AppendRound(rounds[t].loads);
        forall p | p in ports
          ensures text[p] == head + BlocksText(LoadsOf(rounds, p)[..t + 1])
        {
          BlocksUpTo(rounds, p, t);
        }
      }
      forall p | p in ports
        ensures text[p] == FileText(LoadsOf(rounds, p))
      {
        assert LoadsOf(rounds, p)[..|rounds|] == LoadsOf(rounds, p);
      }
    }
  }

  lemma NoBlocks(rounds: seq<Round>)
    ensures forall p :: BlocksText(LoadsOf(rounds, p)[..0]) == ""
  {
  }

  lemma BlocksUpTo(rounds: seq<Round>, p: string, t: nat)
    requires t < |rounds| && p in rounds[t].loads
    ensures BlocksText(LoadsOf(rounds, p)[..t + 1])
            == BlocksText(LoadsOf(rounds, p)[..t]) + BlockText(rounds[t].loads[p])
  {
    assert LoadsOf(rounds, p)[..t + 1] == LoadsOf(rounds, p)[..t] + [rounds[t].loads[p]];
    BlocksSnoc(LoadsOf(rounds, p)[..t], rounds[t].loads[p]);
  }

  lemma LinesNone(groups: seq<nat>)
    ensures GroupLines(groups[..0]) == ""
  {
  }

  lemma {:induction false} LinesSnoc(groups: seq<nat>, g: nat)
    ensures GroupLines(groups + [g]) == GroupLines(groups) + Line(Dotted(g))
  {
    hide Dotted, Line;
    if groups == [] {
      assert [g][1..] == [];
      assert Line(Dotted(g)) + "" == Line(Dotted(g));
    } else {
      LinesSnoc(groups[1..], g);
      assert (groups + [g])[1..] == groups[1..] + [g];
    }
  }

  function LoadsOf(rounds: seq<Round>, port: string): seq<Load> {
    seq(|rounds|, t requires 0 <= t < |rounds| =>
          if port in rounds[t].loads then rounds[t].loads[port] else Load(0, []))
  }

  lemma {:induction false} BlocksSnoc(loads: seq<Load>, load: Load)
    ensures BlocksText(loads + [load]) == BlocksText(loads) + BlockText(load)
  {
    hide BlockText;
    if loads == [] {
      assert [load][1..] == [];
      assert BlockText(load) + "" == BlockText(load);
    } else {
      BlocksSnoc(loads[1..], load);
      assert (loads + [load])[1..] == loads[1..] + [load];
    }
  }

  // ---- scanning

  predicate IsDigit(c: char) {
    '0' <= c <= '9'
  }

  predicate IsSpace(c: char) {
    c == ' ' || c == '\t' || c == '\n' || c == '\r'
  }

  function Span(s: string): (k: nat)
    ensures k <= |s|
  {
    if s != "" && IsDigit(s[0]) then 1 + Span(s[1..]) else 0
  }

  function Value(digits: string): nat {
    if digits == "" then 0
    else
      var c := digits[|digits| - 1];
      Value(digits[..|digits| - 1]) * 10 + if IsDigit(c) then (c - '0') as nat else 0
  }

  function SkipSpace(s: string): string {
    if s != "" && IsSpace(s[0]) then SkipSpace(s[1..]) else s
  }

  /** fscanf(f, "%u\n", &n) */
  datatype Scan = Number(n: nat, rest: string) | NoMatch | EndOfFile

  function ScanLine(s: string): Scan {
    var t := SkipSpace(s);
    if t == "" then EndOfFile
    else if Span(t) == 0 then NoMatch
    else Number(Value(t[..Span(t)]) % UINT32, SkipSpace(t[Span(t)..]))
  }

  function NewlineAt(s: string): (k: nat)
    ensures k <= |s|
  {
    if s == "" || s[0] == '\n' then 0 else 1 + NewlineAt(s[1..])
  }

  /** fgets with a buffer of MAX_GROUP_NAME characters: the line, and what follows it. */
  function Fgets(s: string): Option<(string, string)> {
    if s == "" then None
    else
      var k := Min(Min(NewlineAt(s) + 1, |s|), MAX_GROUP_NAME - 1);
      Some((s[..k], s[k..]))
  }

  function ReadLines(s: string, m: nat): Option<(seq<string>, string)> {
    if m == 0 then Some(([], s))
    else
      match Fgets(s)
      case None => None
      case Some(line) =>
        match ReadLines(line.1, m - 1)
        case None => None
        case Some(more) => Some(([line.0] + more.0, more.1))
  }

  /** What loading ends in: the group lines of every iteration, a failed assertion, or something the
      C standard leaves open (an uninitialised count, a write past the arrays). */
  datatype Loading = Loaded(blocks: seq<seq<string>>) | Aborted | Undefined

  function Prepend(blocks: seq<seq<string>>, l: Loading): Loading {
    if l.Loaded? then Loaded(blocks + l.blocks) else l
  }

  function ReadBlocks(s: string, n: nat): Loading
    decreases n
  {
    if n == 0 then Loaded([])
    else
      match ScanLine(s)
      case NoMatch => Aborted
      case EndOfFile => Undefined   // the assertion accepts EOF, the count is never written
      case Number(m, rest) =>
        match ReadLines(rest, Min(m, MAX_GROUPS))
        case None => Aborted
        case Some(lines) => if m > MAX_GROUPS then Undefined else Prepend([lines.0], ReadBlocks(lines.1, n - 1))
  }

  function LoadSpec(text: string): Loading {
    match ScanLine(text)
    case Number(n, rest) => ReadBlocks(rest, n)
    case _ => Aborted
  }

  /** The inner loop of main. */
  method LoadGroups(s: string, m: nat) returns (r: Option<(seq<string>, string)>)
    ensures r == ReadLines(s, m)
  {
    hide Fgets;
    var lines, rest := [], s;
    assert forall more: seq<string> :: [] + more == more;
    for j := 0 to m
      invariant match ReadLines(rest, m - j)
                case None => ReadLines(s, m) == None
                case Some(more) => ReadLines(s, m) == Some((lines + more.0, more.1))
    {
      var line := Fgets(rest);
      if line == None {
        return None;
      }
      ghost var before := lines;
      lines := lines + [line.value.0];
      rest := line.value.1;
      assert forall more: seq<string> :: lines + more == before + ([line.value.0] + more);
    }
    assert lines + [] == lines;
    return Some((lines, rest));
  }

  /** The loading part of main. */
  method LoadIterations(text: string) returns (l: Loading)
    ensures l == LoadSpec(text)
  {
    hide ScanLine, ReadLines;
    var header := ScanLine(text);
    if !header.Number? {
      return Aborted;
    }
    var blocks, rest := [], header.rest;
    assert Prepend([], ReadBlocks(rest, header.n)) == ReadBlocks(rest, header.n);
    for i := 0 to header.n
      invariant Prepend(blocks, ReadBlocks(rest, header.n - i)) == ReadBlocks(header.rest, header.n)
    {
      var count := ScanLine(rest);
      if count.NoMatch? {
        return Aborted;
      } else if count.EndOfFile? {
        return Undefined;
      }
      var lines := LoadGroups(count.rest, Min(count.n, MAX_GROUPS));
      if lines == None {
        return Aborted;
      }
      if count.n > MAX_GROUPS {
        return Undefined;
      }
      PrependTwice(blocks, lines.value.0, ReadBlocks(lines.value.1, header.n - i - 1));
      blocks := blocks + [lines.value.0];
      rest := lines.value.1;
    }
    assert blocks + [] == blocks;
    return Loaded(blocks);
  }

  lemma PrependTwice(blocks: seq<seq<string>>, block: seq<string>, l: Loading)
    ensures Prepend(blocks, Prepend([block], l)) == Prepend(blocks + [block], l)
  {
    if l.Loaded? {
      assert blocks + ([block] + l.blocks) == blocks + [block] + l.blocks;
    }
  }

  // ---- the round trip

  ghost predicate Digits(s: string) {
    forall i | 0 <= i < |s| :: IsDigit(s[i])
  }

  lemma {:induction false} DecReadsBack(n: nat)
    ensures Digits(Dec(n)) && Dec(n) != "" && Value(Dec(n)) == n
  {
    if n >= 10 {
      DecReadsBack(n / 10);
      assert Dec(n)[..|Dec(n)| - 1] == Dec(n / 10);
    } else {
      assert Dec(n)[..0] == "";
    }
  }

  lemma {:induction false} SpanOfDigits(digits: string, rest: string)
    requires Digits(digits) && (rest == "" || !IsDigit(rest[0]))
    ensures Span(digits + rest) == |digits|
  {
    if digits == "" {
      assert digits + rest == rest;
    } else {
      SpanOfDigits(digits[1..], rest);
      assert (digits + rest)[1..] == digits[1..] + rest;
    }
  }

  /** The rest of a printed file starts with a digit, if there is any. */
  ghost predicate Clean(s: string) {
    s == "" || IsDigit(s[0])
  }

  lemma ScanDigits(digits: string, rest: string)
    requires Digits(digits) && digits != "" && Clean(rest)
    ensures ScanLine(Line(digits) + rest) == Number(Value(digits) % UINT32, rest)
  {
    var s := Line(digits) + rest;
    assert s == digits + ("\n" + rest);
    SpanOfDigits(digits, "\n" + rest);
    assert s[..|digits|] == digits && s[|digits|..] == "\n" + rest;
    assert ("\n" + rest)[1..] == rest;
    hide Span, Value;
    assert SkipSpace(s) == s && SkipSpace(rest) == rest;
    assert SkipSpace("\n" + rest) == SkipSpace(rest);
  }

  lemma ScanPrinted(n: nat, rest: string)
    requires n < UINT32 && Clean(rest)
    ensures ScanLine(Line(Dec(n)) + rest) == Number(n, rest)
  {
    DecReadsBack(n);
    hide Dec, Value;
    ScanDigits(Dec(n), rest);
  }

  lemma {:induction false} NewlineAfter(s: string, rest: string)
    requires forall i | 0 <= i < |s| :: s[i] != '\n'
    ensures NewlineAt(s + "\n" + rest) == |s|
  {
    if s == "" {
      assert s + "\n" + rest == "\n" + rest;
    } else {
      NewlineAfter(s[1..], rest);
      assert (s + "\n" + rest)[1..] == s[1..] + "\n" + rest;
    }
  }

  lemma OctetShort(n: nat)
    requires n < 256
    ensures |Dec(n)| <= 3
  {
    if n >= 10 {
      var d := n / 10;
      assert |Dec(n)| == |Dec(d)| + 1;
      if d >= 10 {
        assert d / 10 < 10;
        assert |Dec(d)| == |Dec(d / 10)| + 1 == 2;
      }
    }
  }

  lemma DottedShape(a: nat)
    ensures |Dotted(a)| <= 15 && Dotted(a) != "" && IsDigit(Dotted(a)[0])
    ensures forall i | 0 <= i < |Dotted(a)| :: IsDigit(Dotted(a)[i]) || Dotted(a)[i] == '.'
  {
    var w, x, y, z := a / 0x100_0000 % 256, a / 0x1_0000 % 256, a / 0x100 % 256, a % 256;
    OctetShort(w);
    OctetShort(x);
    OctetShort(y);
    OctetShort(z);
    DecReadsBack(w);
    DecReadsBack(x);
    DecReadsBack(y);
    DecReadsBack(z);
    hide Dec, Value;
  }

  lemma FgetsPrinted(a: nat, rest: string)
    ensures Fgets(Line(Dotted(a)) + rest) == Some((Line(Dotted(a)), rest))
  {
    DottedShape(a);
    hide Dotted;
    NewlineAfter(Dotted(a), rest);
    var s := Line(Dotted(a)) + rest;
    assert s == Dotted(a) + "\n" + rest;
    var k := |Dotted(a)| + 1;
    assert s[..k] == Line(Dotted(a)) && s[k..] == rest;
  }

  function LinesOf(groups: seq<nat>): seq<string> {
    seq(|groups|, i requires 0 <= i < |groups| => Line(Dotted(groups[i])))
  }

  lemma {:induction false} LinesReadBack(groups: seq<nat>, m: nat, rest: string)
    requires m <= |groups|
    ensures ReadLines(GroupLines(groups) + rest, m) == Some((LinesOf(groups[..m]), GroupLines(groups[m..]) + rest))
    decreases m
  {
    hide Fgets, Dotted, Line, GroupLines, LinesOf;
    if m == 0 {
      assert groups[0..] == groups;
      NoLine(groups);
    } else {
      FirstLine(groups, rest);
      FirstOfLines(groups, m);
      FgetsPrinted(groups[0], GroupLines(groups[1..]) + rest);
      LinesReadBack(groups[1..], m - 1, rest);
    }
  }

  lemma NoLine(groups: seq<nat>)
    ensures LinesOf(groups[..0]) == []
  {
  }

  lemma FirstLine(groups: seq<nat>, rest: string)
    requires groups != []
    ensures GroupLines(groups) + rest == Line(Dotted(groups[0])) + (GroupLines(groups[1..]) + rest)
  {
    hide Dotted, Line;
  }

  lemma FirstOfLines(groups: seq<nat>, m: nat)
    requires 0 < m <= |groups|
    ensures LinesOf(groups[..m]) == [Line(Dotted(groups[0]))] + LinesOf(groups[1..][..m - 1])
    ensures groups[1..][m - 1..] == groups[m..]
  {
    hide Dotted, Line;
  }

  /** The count printed for a block is the number of its groups, and fits an unsigned int. */
  ghost predicate Counted(loads: seq<Load>) {
    |loads| < UINT32 && forall t | 0 <= t < |loads| :: loads[t].nGroups == |loads[t].groups| < UINT32
  }

  predicate WithinArrays(loads: seq<Load>) {
    forall t | 0 <= t < |loads| :: loads[t].nGroups <= MAX_GROUPS
  }

  function BlockLines(loads: seq<Load>): seq<seq<string>> {
    seq(|loads|, t requires 0 <= t < |loads| => LinesOf(loads[t].groups))
  }

  lemma BlocksClean(loads: seq<Load>)
    ensures Clean(BlocksText(loads))
  {
    if loads != [] {
      DecReadsBack(loads[0].nGroups);
      assert BlocksText(loads)[0] == Dec(loads[0].nGroups)[0];
    }
  }

  lemma LinesClean(groups: seq<nat>, rest: string)
    requires Clean(rest)
    ensures Clean(GroupLines(groups) + rest)
  {
    if groups == [] {
      assert GroupLines(groups) + rest == rest;
    } else {
      DottedShape(groups[0]);
      hide Dotted;
      assert (GroupLines(groups) + rest)[0] == Dotted(groups[0])[0];
    }
  }

  lemma ReadBlock(s: string, n: nat, m: nat, rest: string, lines: seq<string>, more: string)
    requires n > 0 && ScanLine(s) == Number(m, rest) && ReadLines(rest, Min(m, MAX_GROUPS)) == Some((lines, more))
    ensures ReadBlocks(s, n) == if m > MAX_GROUPS then Undefined else Prepend([lines], ReadBlocks(more, n - 1))
  {
  }

  /** One printed block, followed by others. */
  lemma BlockReadsBack(load: Load, tail: string, n: nat)
    requires load.nGroups == |load.groups| < UINT32 && Clean(tail) && n > 0
    ensures ReadBlocks(BlockText(load) + tail, n)
            == if load.nGroups > MAX_GROUPS then Undefined else Prepend([LinesOf(load.groups)], ReadBlocks(tail, n - 1))
  {
    hide ScanLine, ReadLines, ReadBlocks, Dec, GroupLines, Line, LinesOf, Clean;
    var m, lines := Min(load.nGroups, MAX_GROUPS), GroupLines(load.groups);
    LinesClean(load.groups, tail);
    ScanPrinted(load.nGroups, lines + tail);
    assert BlockText(load) + tail == Line(Dec(load.nGroups)) + (lines + tail);
    LinesReadBack(load.groups, m, tail);
    ReadBlock(BlockText(load) + tail, n, load.nGroups, lines + tail,
              LinesOf(load.groups[..m]), GroupLines(load.groups[m..]) + tail);
    if load.nGroups <= MAX_GROUPS {
      assert load.groups[..m] == load.groups && load.groups[m..] == [];
      NoLines();
      assert "" + tail == tail;
    }
  }

  lemma {:induction false} BlocksReadBack(loads: seq<Load>)
    requires Counted(loads)
    ensures ReadBlocks(BlocksText(loads), |loads|) == if WithinArrays(loads) then Loaded(BlockLines(loads)) else Undefined
  {
    hide BlockText, LinesOf, Clean;
    if loads == [] {
    } else {
      hide ReadBlocks;
      var load, more := loads[0], loads[1..];
      BlocksReadBack(more);
      BlocksClean(more);
      BlockReadsBack(load, BlocksText(more), |loads|);
      assert BlockLines(loads) == [LinesOf(load.groups)] + BlockLines(more);
      assert WithinArrays(loads) <==> load.nGroups <= MAX_GROUPS && WithinArrays(more);
    }
  }

  lemma NoLines()
    ensures GroupLines([]) == ""
  {
  }

  /** Scanning what was printed gives back the blocks, empty ones included, exactly when every block
      fits the tester's arrays; otherwise the tester writes past them. */
  lemma FileReadsBack(loads: seq<Load>)
    requires Counted(loads)
    ensures LoadSpec(FileText(loads)) == if WithinArrays(loads) then Loaded(BlockLines(loads)) else Undefined
  {
    hide ScanLine, BlocksText, ReadBlocks;
    BlocksClean(loads);
    ScanPrinted(|loads|, BlocksText(loads));
    BlocksReadBack(loads);
  }

  // ---- the addresses

  const INADDR_NONE: nat := 0xFFFF_FFFF

  /** One decimal part of a dotted quad, and what follows it. */
  function Octet(s: string): Option<(nat, string)> {
    var k := Span(s);
    if k == 0 || k > 3 || (k > 1 && s[0] == '0') || Value(s[..k]) > 255 then None
    else Some((Value(s[..k]), s[k..]))
  }

  function Quad(s: string, more: nat, acc: nat): Option<nat> {
    match Octet(s)
    case None => None
    case Some(part) =>
      if more == 0 then
        if part.1 == "" || IsSpace(part.1[0]) then Some(acc * 256 + part.0) else None
      else if part.1 == "" || part.1[0] != '.' then None
      else Quad(part.1[1..], more - 1, acc * 256 + part.0)
  }

  /** inet_addr on a dotted quad; what follows white space is ignored. */
  function InetAddr(s: string): nat {
    match Quad(s, 3, 0)
    case Some(a) => a
    case None => INADDR_NONE
  }

  /** The groups the tester joins, block by block. */
  function Groups(blocks: seq<seq<string>>): seq<seq<nat>> {
    seq(|blocks|, t requires 0 <= t < |blocks| =>
          seq(|blocks[t]|, j requires 0 <= j < |blocks[t]| => InetAddr(blocks[t][j])))
  }

  lemma {:induction false} NoLeadingZero(n: nat)
    ensures Dec(n) != "" && (|Dec(n)| > 1 ==> Dec(n)[0] != '0')
  {
    if n >= 10 {
      NoLeadingZero(n / 10);
    }
  }

  lemma OctetReadsBack(n: nat, rest: string)
    requires n < 256 && (rest == "" || !IsDigit(rest[0]))
    ensures Octet(Dec(n) + rest) == Some((n, rest))
  {
    DecReadsBack(n);
    NoLeadingZero(n);
    OctetShort(n);
    SpanOfDigits(Dec(n), rest);
    hide Dec, Value, Span;
    assert (Dec(n) + rest)[..|Dec(n)|] == Dec(n) && (Dec(n) + rest)[|Dec(n)|..] == rest;
    assert (Dec(n) + rest)[0] == Dec(n)[0];
  }

  lemma QuadStep(n: nat, tail: string, more: nat, acc: nat)
    requires n < 256 && more > 0
    ensures Quad(Dec(n) + ("." + tail), more, acc) == Quad(tail, more - 1, acc * 256 + n)
  {
    OctetReadsBack(n, "." + tail);
    assert ("." + tail)[1..] == tail;
  }

  lemma BytesOf(a: nat)
    requires a < UINT32
    ensures (((a / 0x100_0000 % 256) * 256 + a / 0x1_0000 % 256) * 256 + a / 0x100 % 256) * 256 + a % 256 == a
  {
    var b := a / 0x100;
    assert b == a / 0x100 && a == 0x100 * b + a % 0x100;
    var c := b / 0x100;
    assert c == a / 0x1_0000 && b == 0x100 * c + b % 0x100;
    assert c / 0x100 == a / 0x100_0000 && c == 0x100 * (c / 0x100) + c % 0x100;
  }

  lemma QuadEnd(n: nat, acc: nat)
    requires n < 256
    ensures Quad(Dec(n) + "\n", 0, acc) == Some(acc * 256 + n)
  {
    OctetReadsBack(n, "\n");
  }

  lemma FromTheRight(w: string, x: string, y: string, z: string, dot: string, end: string)
    ensures w + dot + x + dot + y + dot + z + end == w + (dot + (x + (dot + (y + (dot + (z + end))))))
  {
    var right := y + (dot + (z + end));
    assert y + dot + z + end == right;
    assert w + dot + x + dot + right == w + (dot + (x + (dot + right)));
    assert w + dot + x + dot + y + dot + z + end == w + dot + x + dot + (y + dot + z + end);
  }

  lemma FourQuads(w: nat, x: nat, y: nat, z: nat, x0: string, y0: string, z0: string)
    requires w < 256 && x < 256 && y < 256 && z < 256
    requires z0 == Dec(z) + "\n" && y0 == Dec(y) + ("." + z0) && x0 == Dec(x) + ("." + y0)
    ensures Quad(Dec(w) + ("." + x0), 3, 0) == Some(((w * 256 + x) * 256 + y) * 256 + z)
  {
    hide Dec, Octet, Quad;
    QuadEnd(z, (w * 256 + x) * 256 + y);
    QuadStep(y, z0, 1, w * 256 + x);
    QuadStep(x, y0, 2, w);
    QuadStep(w, x0, 3, 0);
  }

  lemma QuadReadsBack(w: nat, x: nat, y: nat, z: nat)
    requires w < 256 && x < 256 && y < 256 && z < 256
    ensures Quad(Line(Dec(w) + "." + Dec(x) + "." + Dec(y) + "." + Dec(z)), 3, 0)
            == Some(((w * 256 + x) * 256 + y) * 256 + z)
  {
    hide Dec, Octet, Quad;
    var z0 := Dec(z) + "\n";
    var y0 := Dec(y) + ("." + z0);
    var x0 := Dec(x) + ("." + y0);
    FourQuads(w, x, y, z, x0, y0, z0);
    FromTheRight(Dec(w), Dec(x), Dec(y), Dec(z), ".", "\n");
  }

  lemma InetReadsBack(a: nat)
    requires a < UINT32
    ensures InetAddr(Line(Dotted(a))) == a
  {
    hide Dec, Quad, Line;
    BytesOf(a);
    QuadReadsBack(a / 0x100_0000 % 256, a / 0x1_0000 % 256, a / 0x100 % 256, a % 256);
  }

  lemma {:induction false} ProjBelow(hits: seq<Hit>, port: string, limit: nat)
    requires forall k | 0 <= k < |hits| :: hits[k].group < limit
    ensures forall i | 0 <= i < |Proj(hits, port)| :: Proj(hits, port)[i] < limit
  {
    if hits == [] {
    } else {
      ProjBelow(hits[..|hits| - 1], port, limit);
    }
  }

  lemma {:induction false} StreamBelow(switches: seq<seq<string>>, groups: nat, receivers: nat)
    requires GroupsExist(switches, groups)
    ensures forall k | 0 <= k < |Stream(switches, groups, receivers)| ::
              Stream(switches, groups, receivers)[k].group < UINT32
  {
    if switches == [] {
    } else {
      var last := switches[|switches| - 1];
      assert switches[|switches| - 1] == last;
      StreamBelow(switches[..|switches| - 1], groups, receivers);
      if last != [] {
        forall k | 0 <= k < groups * receivers
          ensures k < |SwitchStream(last, groups, receivers)|
          ensures SwitchStream(last, groups, receivers)[k].group < UINT32
        {
          StreamLength(last, groups, receivers);
          GroupBelow(k, groups, receivers);
          HitAt(last, groups, receivers, k);
        }
        StreamLength(last, groups, receivers);
      }
    }
  }

  lemma GroupBelow(k: nat, groups: nat, receivers: nat)
    requires k < groups * receivers
    ensures receivers > 0 && k / receivers < groups
  {
  }

  lemma SlicesBelow(hits: seq<Hit>, b: nat, limit: nat, t: nat)
    requires b > 0 && t < |Slices(hits, b)| && forall k | 0 <= k < |hits| :: hits[k].group < limit
    ensures forall k | 0 <= k < |Slices(hits, b)[t]| :: Slices(hits, b)[t][k].group < limit
    decreases |hits|
  {
    if |hits| > b && t > 0 {
      SlicesBelow(hits[b..], b, limit, t - 1);
    }
  }

  /** A plan whose groups are addresses is counted right, and read back group by group. */
  lemma PlanLoads(hits: seq<Hit>, batch: int, ports: set<string>, port: string, t: nat)
    requires port in ports && t < |Plan(hits, batch, ports)| && forall k | 0 <= k < |hits| :: hits[k].group < UINT32
    ensures var load := LoadsOf(Plan(hits, batch, ports), port)[t];
            && load.nGroups == |load.groups| <= RoundSize(batch, |hits|) && load.nGroups <= |hits|
            && Groups([LinesOf(load.groups)])[0] == load.groups
            && BlocksOf(Plan(hits, batch, ports), port)[t] == load.groups
  {
    var b := RoundSize(batch, |hits|);
    var slice := Slices(hits, b)[t];
    PlanTotals(hits, batch, ports, t);
    SliceFits(hits, b, t);
    SlicesBelow(hits, b, UINT32, t);
    ProjBelow(slice, port, UINT32);
    var groups := LoadsOf(Plan(hits, batch, ports), port)[t].groups;
    assert groups == Proj(slice, port);
    forall j | 0 <= j < |groups|
      ensures InetAddr(LinesOf(groups)[j]) == groups[j]
    {
      InetReadsBack(groups[j]);
    }
  }

  lemma {:induction false} SliceFits(hits: seq<Hit>, b: nat, t: nat)
    requires b > 0 && t < |Slices(hits, b)|
    ensures |Slices(hits, b)[t]| <= |hits|
    decreases |hits|
  {
    if |hits| > b && t > 0 {
      SliceFits(hits[b..], b, t - 1);
    }
  }

  /** From the plan through the file to the tester: unless a block is larger than its arrays, a tester
      joins round by round the groups planned for its port; with a batch of at most MAX_GROUPS it
      always does. */
  lemma TesterGetsItsPlan(switches: seq<seq<string>>, groups: nat, receivers: nat, batch: int,
                          ports: set<string>, port: string)
    requires port in ports && GroupsExist(switches, groups) && |Stream(switches, groups, receivers)| < UINT32
    ensures var hits := Stream(switches, groups, receivers);
            var plan := Plan(hits, batch, ports);
            var l := LoadSpec(FileText(LoadsOf(plan, port)));
            && (l.Loaded? <==> WithinArrays(LoadsOf(plan, port)))
            && (1 <= batch <= MAX_GROUPS ==> l.Loaded?)
            && (l.Loaded? ==> Groups(l.blocks) == BlocksOf(plan, port) && Flatten(Groups(l.blocks)) == Proj(hits, port))
  {
    hide Stream, Plan, LoadSpec, FileText, InetAddr, LinesOf;
    var hits := Stream(switches, groups, receivers);
    var plan := Plan(hits, batch, ports);
    var loads := LoadsOf(plan, port);
    StreamBelow(switches, groups, receivers);
    PlanFits(hits, batch, ports);
    forall t: nat | t < |plan|
      ensures loads[t].nGroups == |loads[t].groups| < UINT32
      ensures 1 <= batch <= MAX_GROUPS ==> loads[t].nGroups <= MAX_GROUPS
      ensures Groups([LinesOf(loads[t].groups)])[0] == BlocksOf(plan, port)[t]
    {
      PlanLoads(hits, batch, ports, port, t);
    }
    FileReadsBack(loads);
    PlanBatchIndependent(hits, batch, ports, port);
    if WithinArrays(loads) {
      forall t | 0 <= t < |plan|
        ensures Groups(BlockLines(loads))[t] == BlocksOf(plan, port)[t]
      {
        assert BlockLines(loads)[t] == LinesOf(loads[t].groups);
        assert Groups(BlockLines(loads))[t] == Groups([LinesOf(loads[t].groups)])[0];
      }
      assert Groups(BlockLines(loads)) == BlocksOf(plan, port);
    }
  }

  lemma PlanFits(hits: seq<Hit>, batch: int, ports: set<string>)
    ensures |Plan(hits, batch, ports)| <= |hits|
    ensures forall t | 0 <= t < |Plan(hits, batch, ports)| :: Plan(hits, batch, ports)[t].loads.Keys == ports
  {
    SlicesFew(hits, RoundSize(batch, |hits|));
  }

  lemma {:induction false} SlicesFew(hits: seq<Hit>, b: nat)
    requires b > 0
    ensures |Slices(hits, b)| <= |hits|
    decreases |hits|
  {
    if |hits| > b {
      SlicesFew(hits[b..], b);
    }
  }

  // ---- the condition in the caller's terms, for one switch

  /** Of the assignments from s to e of a switch, port j has its share of the first e less that of the
      first s. */
  lemma ShareOfSlice(lports: seq<string>, groups: nat, receivers: nat, s: nat, e: nat, j: nat)
    requires DistinctNames(lports) && j < |lports| && s <= e <= groups * receivers
    ensures |SwitchStream(lports, groups, receivers)| == groups * receivers
    ensures |Proj(SwitchStream(lports, groups, receivers)[s..e], lports[j])|
            == Share(e, |lports|, j) - Share(s, |lports|, j)
  {
    hide Share, SwitchStream, Proj;
    RoundRobinShare(lports, groups, receivers, s, j);
    RoundRobinShare(lports, groups, receivers, e, j);
    var stream := SwitchStream(lports, groups, receivers);
    assert stream[..e] == stream[..s] + stream[s..e];
    ProjConcat(stream[..s], stream[s..e], lports[j]);
  }

  function Ceiling(n: nat, ports: nat): nat
    requires ports > 0
  {
    (n + ports - 1) / ports
  }

  /** Among n assignments in a row no port has more than the ceiling, and the first port has that many of
      the first n. */
  lemma LargestShare(s: nat, n: nat, ports: nat, j: nat)
    requires j < ports
    ensures Share(s + n, ports, j) - Share(s, ports, j) <= Ceiling(n, ports)
    ensures Share(0, ports, 0) == 0 && Share(n, ports, 0) == Ceiling(n, ports)
  {
    var a := s + ports - 1 - j;
    var q, r, c, d := a / ports, a % ports, Ceiling(n, ports), (n + ports - 1) % ports;
    assert a == ports * q + r && n + ports - 1 == ports * c + d;
    var u, v := (a + n) / ports, (a + n) % ports;
    assert a + n == ports * u + v;
    assert ports * (u - q - c) == r + d - v - (ports - 1);
    FactorGrows(ports, u - q - c);
    ShareStep(0, ports, 0);
  }

  lemma CeilingGrows(m: nat, n: nat, ports: nat)
    requires ports > 0 && m <= n
    ensures Ceiling(m, ports) <= Ceiling(n, ports)
  {
    var a, b := m + ports - 1, n + ports - 1;
    assert a == ports * (a / ports) + a % ports && b == ports * (b / ports) + b % ports;
    FactorGrows(ports, a / ports - b / ports);
  }

  lemma OneSwitch(lports: seq<string>, groups: nat, receivers: nat)
    requires lports != []
    ensures Stream([lports], groups, receivers) == SwitchStream(lports, groups, receivers)
  {
    assert [lports][..0] == [];
    assert Stream([], groups, receivers) == [];
  }

  /** What round t of a one-switch plan has for port j. */
  lemma RoundShare(lports: seq<string>, groups: nat, receivers: nat, batch: nat, ports: set<string>, t: nat, j: nat)
    requires batch >= 1 && DistinctNames(lports) && j < |lports| && lports[j] in ports
    requires t < |Plan(SwitchStream(lports, groups, receivers), batch, ports)|
    ensures var m := Min(batch, groups * receivers);
            && LoadsOf(Plan(SwitchStream(lports, groups, receivers), batch, ports), lports[j])[t].nGroups
               <= Ceiling(m, |lports|)
            && (t == 0 && j == 0 ==>
                  LoadsOf(Plan(SwitchStream(lports, groups, receivers), batch, ports), lports[0])[0].nGroups
                  == Ceiling(m, |lports|))
  {
    var hits, n := SwitchStream(lports, groups, receivers), groups * receivers;
    StreamLength(lports, groups, receivers);
    SliceAt(hits, batch, t);
    var s, e := t * batch, Min((t + 1) * batch, n);
    MulSucc(batch, t);
    ShareOfSlice(lports, groups, receivers, s, e, j);
    LargestShare(s, e - s, |lports|, j);
    CeilingGrows(e - s, Min(batch, n), |lports|);
    hide Share, SwitchStream, Proj, Slices, Ceiling;
  }

  /** With one switch of n ports, every tester loads its file exactly when the largest share of a round, the
      ceiling of its joins over the ports, fits the arrays. */
  lemma OneSwitchLoadsIff(lports: seq<string>, groups: nat, receivers: nat, batch: nat, ports: set<string>)
    requires lports != [] && DistinctNames(lports) && (forall j | 0 <= j < |lports| :: lports[j] in ports)
    requires batch >= 1 && GroupsExist([lports], groups) && groups * receivers < UINT32
    ensures (forall j: nat | j < |lports| ::
               LoadSpec(FileText(LoadsOf(Plan(Stream([lports], groups, receivers), batch, ports), lports[j]))).Loaded?)
            <==> Ceiling(Min(batch, groups * receivers), |lports|) <= MAX_GROUPS
  {
    OneSwitch(lports, groups, receivers);
    StreamLength(lports, groups, receivers);
    hide Stream, SwitchStream, LoadSpec, FileText, Ceiling;
    var hits := SwitchStream(lports, groups, receivers);
    var plan := Plan(hits, batch, ports);
    forall j: nat | j < |lports|
      ensures LoadSpec(FileText(LoadsOf(plan, lports[j]))).Loaded? <==> WithinArrays(LoadsOf(plan, lports[j]))
    {
      TesterGetsItsPlan([lports], groups, receivers, batch, ports, lports[j]);
    }
    NoRounds(hits, batch, ports);
    SmallCeiling(|lports|);
    hide Plan;
    forall j: nat, t: nat | j < |lports| && t < |plan|
      ensures LoadsOf(plan, lports[j])[t].nGroups <= Ceiling(Min(batch, groups * receivers), |lports|)
      ensures t == 0 && j == 0 ==>
                LoadsOf(plan, lports[0])[0].nGroups == Ceiling(Min(batch, groups * receivers), |lports|)
    {
      RoundShare(lports, groups, receivers, batch, ports, t, j);
    }
    if WithinArrays(LoadsOf(plan, lports[0])) && |plan| > 0 {
      assert LoadsOf(plan, lports[0])[0].nGroups <= MAX_GROUPS;
    }
  }

  lemma SmallCeiling(ports: nat)
    requires ports > 0
    ensures Ceiling(0, ports) == 0
  {
    DivModUnique(ports - 1, ports, 0, ports - 1);
  }

  lemma NoRounds(hits: seq<Hit>, batch: int, ports: set<string>)
    ensures |Plan(hits, batch, ports)| == 0 <==> hits == []
  {
  }
}
