/** The trigger protocol: the controller signals one tester per port and round, each tester joins one
    block of groups per semaphore post. Every interleaving is a sequence of events. */
module McastTriggers {
  import opened Common
  import opened McastPlans
  import opened McastFiles

  /** What a run is of: the ports, the host each tester runs on, the blocks each tester has loaded, and
      the joins the controller expects per round. */
  datatype Setup = Setup(ports: seq<string>, farm: map<string, string>, blocks: map<string, seq<seq<nat>>>, totals: seq<int>)

  /** One tester process: a pending SIGUSR1, the semaphore, the two loop variables of main and the groups
      joined; then, for the record, the signals sent to it and those merged into a pending one. */
  datatype Tester = Tester(pending: bool, sem: nat, i: nat, busy: bool, j: nat, joined: seq<nat>, sent: nat, lost: nat)

  /** The controller: rounds begun, ports still to be triggered in this one, whether it polls for the
      joins of the rounds so far, and how many it expects. */
  datatype State = State(round: nat, left: set<string>, polling: bool, expected: int, testers: map<string, Tester>)

  datatype Act = Deliver | Wait | Join | Leave
  datatype Event = Begin | Trigger(port: string) | Poll | Run(port: string, act: Act)

  // ---- which testers a trigger reaches

  function CommandLine(port: string): string {
    "/tmp/test /tmp/test-" + port + "-input"
  }

  predicate MatchesAt(pattern: string, text: string, k: nat) {
    k + |pattern| <= |text| && forall i | 0 <= i < |pattern| :: pattern[i] == '.' || pattern[i] == text[k + i]
  }

  /** grep, for patterns whose only special character is the dot */
  predicate Grep(pattern: string, text: string) {
    exists k: nat | k <= |text| :: MatchesAt(pattern, text, k)
  }

  /** The testers that receive the signal meant for port p. */
  function Reached(c: Setup, p: string): (r: set<string>)
    requires Wf(c)
    ensures r <= c.blocks.Keys
  {
    set q | q in c.blocks && p in c.farm && q in c.farm && c.farm[q] == c.farm[p] && Grep(p, CommandLine(q))
  }

  /** The ports whose trigger reaches tester q. */
  function Reaching(c: Setup, q: string): (r: set<string>)
    requires Wf(c)
    ensures r <= c.blocks.Keys
  {
    set p | p in c.blocks && q in Reached(c, p)
  }

  /** Every trigger reaches the tester it names and no other. */
  ghost predicate Isolated(c: Setup)
    requires Wf(c)
  {
    forall p | p in c.blocks :: Reached(c, p) == {p}
  }

  function BlockSizes(c: Setup, t: nat): seq<int>
    requires forall i | 0 <= i < |c.ports| :: c.ports[i] in c.blocks && t < |c.blocks[c.ports[i]]|
  {
    seq(|c.ports|, i requires 0 <= i < |c.ports| => |c.blocks[c.ports[i]][t]|)
  }

  ghost predicate Wf(c: Setup) {
    && DistinctNames(c.ports) && c.blocks.Keys <= c.farm.Keys
    && (forall i | 0 <= i < |c.ports| :: c.ports[i] in c.blocks)
    && (forall p | p in c.blocks :: p in c.ports && |c.blocks[p]| == |c.totals|)
    && AddsUp(c)
  }

  ghost predicate AddsUp(c: Setup)
    requires forall i | 0 <= i < |c.ports| :: c.ports[i] in c.blocks && |c.blocks[c.ports[i]]| == |c.totals|
  {
    forall t: nat | t < |c.totals| :: c.totals[t] == Sum(BlockSizes(c, t))
  }

  // ---- the steps

  /** kill -s SIGUSR1: a signal that is already pending is not queued again. */
  function Signal(t: Tester): Tester {
    t.(pending := true, sent := t.sent + 1, lost := t.lost + if t.pending then 1 else 0)
  }

  function TesterStep(blocks: seq<seq<nat>>, t: Tester, act: Act): Option<Tester> {
    match act
    case Deliver => if t.pending then Some(t.(pending := false, sem := t.sem + 1)) else None
    case Wait =>
      if !t.busy && t.i < |blocks| && t.sem > 0 then Some(t.(sem := t.sem - 1, busy := true, j := 0)) else None
    case Join =>
      if t.busy && t.i < |blocks| && t.j < |blocks[t.i]| then
        Some(t.(j := t.j + 1, joined := t.joined + [blocks[t.i][t.j]]))
      else None
    case Leave =>
      if t.busy && t.i < |blocks| && t.j >= |blocks[t.i]| then Some(t.(busy := false, i := t.i + 1)) else None
  }

  function SignalAll(testers: map<string, Tester>, reached: set<string>): map<string, Tester> {
    map q | q in testers :: if q in reached then Signal(testers[q]) else testers[q]
  }

  function Next(c: Setup, s: State, e: Event): (r: Option<State>)
    requires Wf(c) && s.testers.Keys == c.blocks.Keys
    ensures r.Some? ==> r.value.testers.Keys == c.blocks.Keys
  {
    match e
    case Begin =>
      if s.polling && s.round < |c.totals| then
        Some(s.(round := s.round + 1, left := c.blocks.Keys, polling := false))
      else None
    case Trigger(p) =>
      if p in s.left then Some(s.(left := s.left - {p}, testers := SignalAll(s.testers, Reached(c, p)))) else None
    case Poll =>
      if !s.polling && s.left == {} && 0 < s.round <= |c.totals| then
        Some(s.(polling := true, expected := s.expected + c.totals[s.round - 1]))
      else None
    case Run(q, act) =>
      if q !in c.blocks then None
      else
        match TesterStep(c.blocks[q], s.testers[q], act)
        case None => None
        case Some(t) => Some(s.(testers := s.testers[q := t]))
  }

  function Init(c: Setup): (s: State)
    ensures s.testers.Keys == c.blocks.Keys
  {
    State(0, {}, true, 0, map q | q in c.blocks :: Tester(false, 0, 0, false, 0, [], 0, 0))
  }

  /** The state after the events, if they can happen in this order. */
  function Exec(c: Setup, s: State, events: seq<Event>): (r: Option<State>)
    requires Wf(c) && s.testers.Keys == c.blocks.Keys
    ensures r.Some? ==> r.value.testers.Keys == c.blocks.Keys
    decreases |events|
  {
    if events == [] then Some(s)
    else
      match Next(c, s, events[0])
      case None => None
      case Some(next) => Exec(c, next, events[1..])
  }

  /** A trigger acts on the host of the port it names and nowhere else: there each tester whose command line
      the name matches, its own at least, gets one more signal, lost if one is pending; nothing else changes. */
  lemma TriggerActs(c: Setup, s: State, p: string, q: string)
    requires Wf(c) && s.testers.Keys == c.blocks.Keys && p in c.blocks && q in c.blocks
    requires Next(c, s, Trigger(p)).Some?
    ensures var next := Next(c, s, Trigger(p)).value;
            var t, u := s.testers[q], next.testers[q];
            && p in s.left && next == s.(left := s.left - {p}, testers := next.testers)
            && (c.farm[q] != c.farm[p] ==> u == t)
            && (u.sent == t.sent + 1 <==> c.farm[q] == c.farm[p] && Grep(p, CommandLine(q)))
            && (u.sent != t.sent + 1 ==> u == t)
            && (u.sent == t.sent + 1 ==>
                  u == t.(pending := true, sent := u.sent, lost := t.lost + if t.pending then 1 else 0))
            && (q == p ==> u.sent == t.sent + 1)
  {
    ReachesItself(c, p);
    hide Grep, CommandLine;
  }

  /** A trigger always reaches the tester it names. */
  lemma ReachesItself(c: Setup, p: string)
    requires Wf(c) && p in c.blocks
    ensures p in Reached(c, p) && Grep(p, CommandLine(p))
  {
    assert MatchesAt(p, CommandLine(p), |"/tmp/test /tmp/test-"|);
  }

  /** So every tester keeps to itself exactly when no name matches the command line of another tester on its
      host ... */
  lemma IsolatedIff(c: Setup)
    requires Wf(c)
    ensures Isolated(c)
            <==> forall p, q | p in c.blocks && q in c.blocks && p != q && c.farm[p] == c.farm[q] :: !Grep(p, CommandLine(q))
  {
    hide Grep, CommandLine, AddsUp, DistinctNames;
    if Isolated(c) {
      forall p, q | p in c.blocks && q in c.blocks && p != q && c.farm[p] == c.farm[q]
        ensures !Grep(p, CommandLine(q))
      {
        assert Reached(c, p) == {p};
        assert q !in Reached(c, p);
      }
    } else {
      var p :| p in c.blocks && Reached(c, p) != {p};
      ReachesItself(c, p);
      var q :| q in Reached(c, p) && q != p;
      assert q in c.blocks && c.farm[p] == c.farm[q] && Grep(p, CommandLine(q));
    }
  }

  // ---- what every step keeps

  /** Every signal sent is merged, pending, posted or used up; the groups joined are those of the blocks
      passed and of the current block so far. */
  ghost predicate TesterInv(blocks: seq<seq<nat>>, t: Tester) {
    && t.sent == t.lost + (if t.pending then 1 else 0) + t.sem + t.i + (if t.busy then 1 else 0)
    && (t.sent > 0 ==> t.lost < t.sent)
    && t.i <= |blocks| && (t.busy ==> t.i < |blocks| && t.j <= |blocks[t.i]|)
    && t.joined == Flatten(blocks[..t.i]) + if t.busy then blocks[t.i][..t.j] else []
  }

  /** The signals tester q has been sent when `left` is still to be triggered. */
  function SentBy(c: Setup, q: string, round: nat, left: set<string>): int
    requires Wf(c)
  {
    round * |Reaching(c, q)| - |Reaching(c, q) * left|
  }

  ghost predicate Inv(c: Setup, s: State)
    requires Wf(c)
  {
    && s.testers.Keys == c.blocks.Keys && s.left <= c.blocks.Keys
    && s.round <= |c.totals| && (if s.polling then s.left == {} else s.round > 0)
    && s.expected == Sum(c.totals[..if s.polling then s.round else s.round - 1])
    && (forall q | q in s.testers ::
          TesterInv(c.blocks[q], s.testers[q]) && s.testers[q].sent == SentBy(c, q, s.round, s.left))
  }

  lemma TesterKeeps(blocks: seq<seq<nat>>, t: Tester, act: Act)
    requires TesterInv(blocks, t) && TesterStep(blocks, t, act).Some?
    ensures var u := TesterStep(blocks, t, act).value; TesterInv(blocks, u) && u.sent == t.sent && u.lost == t.lost
  {
    match act
    case Leave =>
      assert blocks[..t.i + 1] == blocks[..t.i] + [blocks[t.i]];
      FlattenSnoc(blocks[..t.i], blocks[t.i]);
      assert blocks[t.i][..t.j] == blocks[t.i];
    case Join =>
      assert blocks[t.i][..t.j + 1] == blocks[t.i][..t.j] + [blocks[t.i][t.j]];
    case _ =>
  }

  lemma BeginCounts(c: Setup, q: string, round: nat)
    requires Wf(c)
    ensures SentBy(c, q, round + 1, c.blocks.Keys) == SentBy(c, q, round, {})
  {
    var h := Reaching(c, q);
    assert h * c.blocks.Keys == h && h * {} == {};
    MulSucc(|h|, round);
  }

  lemma TriggerCounts(c: Setup, q: string, round: nat, left: set<string>, p: string)
    requires Wf(c) && p in left && left <= c.blocks.Keys
    ensures SentBy(c, q, round, left - {p}) == SentBy(c, q, round, left) + if q in Reached(c, p) then 1 else 0
  {
    var h := Reaching(c, q);
    if q in Reached(c, p) {
      assert h * left == h * (left - {p}) + {p};
    } else {
      assert h * left == h * (left - {p});
    }
  }

  lemma NextKeeps(c: Setup, s: State, e: Event)
    requires Wf(c) && Inv(c, s) && Next(c, s, e).Some?
    ensures Inv(c, Next(c, s, e).value)
  {
    hide TesterInv, TesterStep, SentBy, Reached;
    var next := Next(c, s, e).value;
    match e
    case Begin =>
      forall q | q in s.testers
        ensures SentBy(c, q, s.round + 1, c.blocks.Keys) == SentBy(c, q, s.round, {})
      {
        BeginCounts(c, q, s.round);
      }
    case Trigger(p) =>
      forall q | q in s.testers
        ensures TesterInv(c.blocks[q], next.testers[q]) && next.testers[q].sent == SentBy(c, q, s.round, next.left)
      {
        TriggerCounts(c, q, s.round, s.left, p);
        SignalKeeps(c.blocks[q], s.testers[q]);
      }
    case Poll =>
      assert c.totals[..s.round] == c.totals[..s.round - 1] + [c.totals[s.round - 1]];
      SumConcat(c.totals[..s.round - 1], [c.totals[s.round - 1]]);
      SumOne(c.totals[s.round - 1]);
    case Run(q, act) =>
      TesterKeeps(c.blocks[q], s.testers[q], act);
  }

  lemma SignalKeeps(blocks: seq<seq<nat>>, t: Tester)
    requires TesterInv(blocks, t)
    ensures TesterInv(blocks, Signal(t))
  {
  }

  lemma NoneSent(c: Setup, q: string)
    requires Wf(c)
    ensures SentBy(c, q, 0, {}) == 0
  {
    hide Wf, Reaching;
    assert Reaching(c, q) * {} == {};
  }

  lemma InitHolds(c: Setup)
    requires Wf(c)
    ensures Inv(c, Init(c))
  {
    hide Wf, SentBy;
    forall q | q in c.blocks
      ensures SentBy(c, q, 0, {}) == 0 && c.blocks[q][..0] == []
    {
      NoneSent(c, q);
    }
  }

  lemma {:induction false} ExecKeeps(c: Setup, s: State, events: seq<Event>)
    requires Wf(c) && Inv(c, s) && Exec(c, s, events).Some?
    ensures Inv(c, Exec(c, s, events).value)
    decreases |events|
  {
    hide Inv, Next;
    if events == [] {
    } else {
      NextIsNext(c, s, events);
      NextKeeps(c, s, events[0]);
      ExecKeeps(c, Next(c, s, events[0]).value, events[1..]);
    }
  }

  lemma NextIsNext(c: Setup, s: State, events: seq<Event>)
    requires Wf(c) && Inv(c, s) && events != []
    ensures s.testers.Keys == c.blocks.Keys
    ensures Exec(c, s, events).Some? ==>
              Next(c, s, events[0]).Some?
              && Exec(c, s, events) == Exec(c, Next(c, s, events[0]).value, events[1..])
  {
  }

  // ---- safety

  ghost predicate Reachable(c: Setup, s: State)
    requires Wf(c)
  {
    exists events :: Exec(c, Init(c), events) == Some(s)
  }

  lemma ReachableInv(c: Setup, s: State)
    requires Wf(c) && Reachable(c, s)
    ensures Inv(c, s)
  {
    var events :| Exec(c, Init(c), events) == Some(s);
    InitHolds(c);
    ExecKeeps(c, Init(c), events);
  }

  /** No tester has started a round that was not begun. */
  predicate InStep(s: State) {
    forall q | q in s.testers :: s.testers[q].i + (if s.testers[q].busy then 1 else 0) <= s.round
  }

  /** The testers can do nothing more. */
  predicate Drained(c: Setup, s: State) {
    forall q | q in s.testers && q in c.blocks ::
      !s.testers[q].pending && !s.testers[q].busy && (s.testers[q].sem == 0 || s.testers[q].i >= |c.blocks[q]|)
  }

  function JoinsOf(c: Setup, s: State): seq<int>
    requires Wf(c) && s.testers.Keys == c.blocks.Keys
  {
    seq(|c.ports|, i requires 0 <= i < |c.ports| => |s.testers[c.ports[i]].joined|)
  }

  /** What each port is to join in the first r rounds. */
  function DueBy(c: Setup, r: nat): seq<int>
    requires Wf(c) && r <= |c.totals|
  {
    seq(|c.ports|, i requires 0 <= i < |c.ports| => |Flatten(c.blocks[c.ports[i]][..r])|)
  }

  lemma {:induction false} SumAdd(xs: seq<int>, ys: seq<int>, zs: seq<int>)
    requires |xs| == |ys| == |zs| && forall i | 0 <= i < |xs| :: zs[i] == xs[i] + ys[i]
    ensures Sum(zs) == Sum(xs) + Sum(ys)
  {
    if xs == [] {
    } else {
      SumAdd(xs[1..], ys[1..], zs[1..]);
    }
  }

  lemma {:induction false} SumBelow(xs: seq<int>, ys: seq<int>)
    requires |xs| == |ys| && forall i | 0 <= i < |xs| :: xs[i] <= ys[i]
    ensures Sum(xs) <= Sum(ys)
    ensures Sum(xs) == Sum(ys) ==> xs == ys
  {
    if xs == [] {
    } else {
      SumBelow(xs[1..], ys[1..]);
      assert xs == [xs[0]] + xs[1..] && ys == [ys[0]] + ys[1..];
    }
  }

  /** The controller's running total is what all the ports are to join by then. */
  lemma {:induction false} TotalsAreDue(c: Setup, r: nat)
    requires Wf(c) && r <= |c.totals|
    ensures Sum(DueBy(c, r)) == Sum(c.totals[..r])
  {
    if r == 0 {
      assert DueBy(c, 0) == seq(|c.ports|, i => 0);
      ZeroSum(|c.ports|);
    } else {
      hide Sum, DistinctNames, Flatten;
      TotalsAreDue(c, r - 1);
      assert c.totals[..r] == c.totals[..r - 1] + [c.totals[r - 1]];
      SumConcat(c.totals[..r - 1], [c.totals[r - 1]]);
      SumOne(c.totals[r - 1]);
      forall i | 0 <= i < |c.ports|
        ensures DueBy(c, r)[i] == DueBy(c, r - 1)[i] + BlockSizes(c, r - 1)[i]
      {
        var blocks := c.blocks[c.ports[i]];
        assert blocks[..r] == blocks[..r - 1] + [blocks[r - 1]];
        FlattenSnoc(blocks[..r - 1], blocks[r - 1]);
      }
      SumAdd(DueBy(c, r - 1), BlockSizes(c, r - 1), DueBy(c, r));
    }
  }

  lemma PrefixJoined(blocks: seq<seq<nat>>, t: Tester, r: nat)
    requires TesterInv(blocks, t) && t.i + (if t.busy then 1 else 0) <= r <= |blocks|
    ensures t.joined <= Flatten(blocks[..r])
  {
    assert blocks[..r] == blocks[..t.i] + blocks[t.i..r];
    FlattenConcat(blocks[..t.i], blocks[t.i..r]);
    if t.busy {
      var block := blocks[t.i];
      assert blocks[t.i..r][0] == block;
      var later := Flatten(blocks[t.i..r][1..]);
      assert block + later == block[..t.j] + (block[t.j..] + later);
      assert Flatten(blocks[..r]) == t.joined + (block[t.j..] + later);
    }
  }

  lemma OneReaches(c: Setup, q: string)
    requires Wf(c) && Isolated(c) && q in c.blocks
    ensures Reaching(c, q) == {q}
  {
    hide Wf, Reached;
    assert forall p | p in c.blocks :: Reached(c, p) == {p};
  }

  lemma SentSingle(c: Setup, q: string, round: nat, left: set<string>)
    requires Wf(c) && Reaching(c, q) == {q}
    ensures SentBy(c, q, round, left) == round - if q in left then 1 else 0
  {
    hide Wf, Reaching;
    if q in left {
      assert {q} * left == {q};
    } else {
      assert {q} * left == {};
    }
  }

  lemma SentOnce(c: Setup, s: State, q: string)
    requires Wf(c) && Inv(c, s) && Isolated(c) && q in c.blocks
    ensures s.testers[q].sent == s.round - if q in s.left then 1 else 0
  {
    hide Wf, TesterInv, SentBy, Isolated;
    OneReaches(c, q);
    SentSingle(c, q, s.round, s.left);
  }

  lemma Pace(c: Setup, s: State, q: string)
    requires Wf(c) && Isolated(c) && Inv(c, s) && q in c.blocks
    ensures |c.blocks[q]| == |c.totals|
    ensures s.testers[q].i + (if s.testers[q].busy then 1 else 0) <= s.round
    ensures s.testers[q].joined <= Flatten(c.blocks[q][..s.round])
    ensures s.polling && Drained(c, s) ==>
              s.testers[q].lost <= s.round && s.testers[q].joined == Flatten(c.blocks[q][..s.round - s.testers[q].lost])
  {
    hide TesterInv, Isolated, Inv, Wf, Flatten, SentBy;
    SentOnce(c, s, q);
    InvAt(c, s, q);
    UsedBySent(c.blocks[q], s.testers[q]);
    PrefixJoined(c.blocks[q], s.testers[q], s.round);
  }

  /** In every interleaving each tester has joined a prefix of its rounds, no longer than the rounds
      begun; the joins never exceed what is expected; and the two agree, while the controller polls,
      exactly when every tester has joined all its rounds so far. */
  lemma TriggerSafety(c: Setup, s: State)
    requires Wf(c) && Isolated(c) && Reachable(c, s)
    ensures Inv(c, s) && InStep(s)
    ensures forall q | q in c.blocks :: |c.blocks[q]| == |c.totals| && s.testers[q].joined <= Flatten(c.blocks[q][..s.round])
    ensures Sum(JoinsOf(c, s)) <= Sum(c.totals[..s.round])
    ensures s.polling ==> s.expected == Sum(c.totals[..s.round])
    ensures s.polling ==>
              (Sum(JoinsOf(c, s)) == s.expected
               <==> forall q | q in c.blocks :: s.testers[q].joined == Flatten(c.blocks[q][..s.round]))
  {
    hide Isolated, Reachable, Inv, Sum, Flatten, Wf, JoinsOf, DueBy;
    ReachableInv(c, s);
    InvExpected(c, s);
    forall q | q in c.blocks
      ensures s.testers[q].i + (if s.testers[q].busy then 1 else 0) <= s.round
      ensures |c.blocks[q]| == |c.totals| && s.testers[q].joined <= Flatten(c.blocks[q][..s.round])
    {
      Pace(c, s, q);
    }
    TotalsAreDue(c, s.round);
    JoinsWithinDue(c, s);
  }

  lemma InvAt(c: Setup, s: State, q: string)
    requires Wf(c) && Inv(c, s) && q in c.blocks
    ensures q in s.testers && TesterInv(c.blocks[q], s.testers[q])
    ensures |c.blocks[q]| == |c.totals| && s.round <= |c.totals| && (s.polling || s.round == 0 ==> s.left == {})
    ensures s.testers[q].sent == SentBy(c, q, s.round, s.left)
  {
    hide TesterInv, AddsUp, DistinctNames, SentBy;
  }

  lemma InvExpected(c: Setup, s: State)
    requires Wf(c) && Inv(c, s)
    ensures s.testers.Keys == c.blocks.Keys && s.round <= |c.totals|
    ensures s.polling ==> s.expected == Sum(c.totals[..s.round])
  {
  }

  lemma JoinsWithinDue(c: Setup, s: State)
    requires Wf(c) && s.testers.Keys == c.blocks.Keys && s.round <= |c.totals|
    requires forall q | q in c.blocks :: s.testers[q].joined <= Flatten(c.blocks[q][..s.round])
    ensures Sum(JoinsOf(c, s)) <= Sum(DueBy(c, s.round))
    ensures Sum(JoinsOf(c, s)) == Sum(DueBy(c, s.round))
            <==> forall q | q in c.blocks :: s.testers[q].joined == Flatten(c.blocks[q][..s.round])
  {
    hide AddsUp, DistinctNames, Flatten, Sum;
    var joins, due := JoinsOf(c, s), DueBy(c, s.round);
    SumBelow(joins, due);
    if joins == due {
      forall q | q in c.blocks
        ensures s.testers[q].joined == Flatten(c.blocks[q][..s.round])
      {
        var i :| 0 <= i < |c.ports| && c.ports[i] == q;
        assert joins[i] == due[i];
      }
    }
  }

  lemma UsedBySent(blocks: seq<seq<nat>>, t: Tester)
    requires TesterInv(blocks, t)
    ensures t.i + (if t.busy then 1 else 0) + t.lost <= t.sent
    ensures !t.pending && !t.busy ==> t.sent == t.lost + t.sem + t.i
    ensures t.sent <= 1 ==> t.lost == 0
    ensures t.i <= |blocks| && (!t.busy ==> t.joined == Flatten(blocks[..t.i]))
  {
    assert Flatten(blocks[..t.i]) + [] == Flatten(blocks[..t.i]);
  }

  /** Once the testers have drained, each is behind by exactly the signals it lost. */
  lemma DrainedJoins(c: Setup, s: State, q: string)
    requires Wf(c) && Isolated(c) && Reachable(c, s) && s.polling && Drained(c, s) && q in c.blocks
    ensures s.testers.Keys == c.blocks.Keys && s.testers[q].lost <= s.round <= |c.blocks[q]|
    ensures s.testers[q].joined == Flatten(c.blocks[q][..s.round - s.testers[q].lost])
  {
    ReachableInv(c, s);
    InvExpected(c, s);
    hide Inv;
    Pace(c, s, q);
  }

  predicate NoneLost(s: State) {
    forall q | q in s.testers :: s.testers[q].lost == 0
  }

  /** So if no signal was lost, the joins have come up to what the controller expects. */
  lemma DrainedReachesExpected(c: Setup, s: State)
    requires Wf(c) && Isolated(c) && Reachable(c, s) && s.polling && Drained(c, s) && NoneLost(s)
    ensures s.testers.Keys == c.blocks.Keys && Sum(JoinsOf(c, s)) == s.expected
  {
    hide Isolated, Reachable, Inv, Sum, Flatten, Wf, Drained, InStep, JoinsOf;
    TriggerSafety(c, s);
    InvExpected(c, s);
    forall q | q in c.blocks
      ensures s.testers[q].joined == Flatten(c.blocks[q][..s.round])
    {
      DrainedJoins(c, s, q);
    }
  }

  // ---- progress

  /** How many more steps a tester can take before it needs another signal, at most. */
  function Rank(blocks: seq<seq<nat>>, t: Tester): int {
    (if t.pending then 2 else 0) + t.sem + |Flatten(blocks)| - |t.joined| + |blocks| - t.i
  }

  lemma RankFalls(blocks: seq<seq<nat>>, t: Tester, act: Act)
    requires TesterInv(blocks, t)
    ensures Rank(blocks, t) >= 0
    ensures TesterStep(blocks, t, act).Some? ==> Rank(blocks, TesterStep(blocks, t, act).value) == Rank(blocks, t) - 1
  {
    PrefixJoined(blocks, t, |blocks|);
    assert blocks[..|blocks|] == blocks;
    hide Flatten;
  }

  function Ranks(c: Setup, s: State): seq<int>
    requires Wf(c) && s.testers.Keys == c.blocks.Keys
  {
    seq(|c.ports|, i requires 0 <= i < |c.ports| => Rank(c.blocks[c.ports[i]], s.testers[c.ports[i]]))
  }

  /** Left to themselves the testers drain: some step can be taken until they have, and every step
      shortens what is left. */
  lemma TestersDrain(c: Setup, s: State)
    requires Wf(c) && Inv(c, s)
    ensures Sum(Ranks(c, s)) >= 0
    ensures Drained(c, s) <==> forall q, act :: Next(c, s, Run(q, act)).None?
    ensures forall q, act | Next(c, s, Run(q, act)).Some? ::
              Sum(Ranks(c, Next(c, s, Run(q, act)).value)) == Sum(Ranks(c, s)) - 1
  {
    hide TesterInv, AddsUp, SentBy, Reached, DistinctNames, Sum, Ranks;
    RanksPositive(c, s);
    forall q, act | Next(c, s, Run(q, act)).Some?
      ensures Sum(Ranks(c, Next(c, s, Run(q, act)).value)) == Sum(Ranks(c, s)) - 1
    {
      RankSumFalls(c, s, q, act);
    }
    if !Drained(c, s) {
      var q :| q in s.testers && q in c.blocks
               && !(!s.testers[q].pending && !s.testers[q].busy && (s.testers[q].sem == 0 || s.testers[q].i >= |c.blocks[q]|));
      var t := s.testers[q];
      CanStep(c.blocks[q], t);
      var act :| TesterStep(c.blocks[q], t, act).Some?;
      assert Next(c, s, Run(q, act)).Some?;
    }
  }

  lemma CanStep(blocks: seq<seq<nat>>, t: Tester)
    requires TesterInv(blocks, t) && (t.pending || t.busy || (t.sem != 0 && t.i < |blocks|))
    ensures exists act :: TesterStep(blocks, t, act).Some?
  {
    var act := if t.pending then Deliver else if !t.busy then Wait else if t.j < |blocks[t.i]| then Join else Leave;
    assert TesterStep(blocks, t, act).Some?;
  }

  lemma RanksPositive(c: Setup, s: State)
    requires Wf(c) && Inv(c, s)
    ensures Sum(Ranks(c, s)) >= 0
  {
    forall i | 0 <= i < |c.ports|
      ensures Ranks(c, s)[i] >= 0
    {
      RankFalls(c.blocks[c.ports[i]], s.testers[c.ports[i]], Deliver);
    }
    SumBelow(seq(|c.ports|, i => 0), Ranks(c, s));
    ZeroSum(|c.ports|);
  }

  lemma RankSumFalls(c: Setup, s: State, q: string, act: Act)
    requires Wf(c) && Inv(c, s) && Next(c, s, Run(q, act)).Some?
    ensures Sum(Ranks(c, Next(c, s, Run(q, act)).value)) == Sum(Ranks(c, s)) - 1
  {
    hide AddsUp, SentBy, Reached, Rank, Sum, TesterInv;
    var next := Next(c, s, Run(q, act)).value;
    var i :| 0 <= i < |c.ports| && c.ports[i] == q;
    RankFalls(c.blocks[q], s.testers[q], act);
    var before := Ranks(c, s);
    assert Ranks(c, next) == before[i := before[i] - 1];
    SumUpdate(before, i, before[i] - 1);
  }

  // ---- when the assumptions fail

  lemma {:induction false} ExecSnoc(c: Setup, s: State, events: seq<Event>, e: Event)
    requires Wf(c) && s.testers.Keys == c.blocks.Keys && Exec(c, s, events).Some?
    ensures Exec(c, s, events + [e]) == Next(c, Exec(c, s, events).value, e)
    decreases |events|
  {
    hide Wf, Next;
    if events == [] {
      assert [e][1..] == [];
      assert [] + [e] == [e];
    } else {
      assert (events + [e])[1..] == events[1..] + [e];
      ExecSnoc(c, Next(c, s, events[0]).value, events[1..], e);
    }
  }

  lemma Follow(c: Setup, s: State, e: Event) returns (next: State)
    requires Wf(c) && Reachable(c, s) && s.testers.Keys == c.blocks.Keys && Next(c, s, e).Some?
    ensures Next(c, s, e) == Some(next) && Reachable(c, next)
  {
    hide Wf, Next, Init;
    var events :| Exec(c, Init(c), events) == Some(s);
    ExecSnoc(c, Init(c), events, e);
    next := Next(c, s, e).value;
  }

  lemma InitReachable(c: Setup)
    requires Wf(c)
    ensures Reachable(c, Init(c))
  {
    assert Exec(c, Init(c), []) == Some(Init(c));
  }

  /** Tester q takes the steps of its current block. */
  lemma FinishBlock(c: Setup, s: State, q: string) returns (next: State)
    requires Wf(c) && Reachable(c, s) && q in c.blocks && s.testers.Keys == c.blocks.Keys
    requires var t := s.testers[q]; t.busy && t.i < |c.blocks[q]| && t.j <= |c.blocks[q][t.i]|
    ensures Reachable(c, next) && next.testers.Keys == c.blocks.Keys && next.round == s.round
    ensures var t, u := s.testers[q], next.testers[q]; !u.busy && u.i == t.i + 1 && u.sem == t.sem
    decreases |c.blocks[q][s.testers[q].i]| - s.testers[q].j
  {
    hide Reachable, Wf;
    var t := s.testers[q];
    if t.j < |c.blocks[q][t.i]| {
      var after := Follow(c, s, Run(q, Join));
      next := FinishBlock(c, after, q);
    } else {
      next := Follow(c, s, Run(q, Leave));
    }
  }

  lemma PostTwice(c: Setup, p: string, q: string) returns (s: State)
    requires Wf(c) && p in c.blocks && q in Reached(c, p) && q != p && |c.totals| >= 2
    ensures Reachable(c, s) && s.testers.Keys == c.blocks.Keys && s.round == 1
    ensures var t := s.testers[q]; t.sem == 2 && t.i == 0 && !t.busy
  {
    ReachesItself(c, q);
    InitReachable(c);
    hide Reachable, Wf, Reached;
    s := Follow(c, Init(c), Begin);
    s := Follow(c, s, Trigger(p));
    s := Follow(c, s, Run(q, Deliver));
    s := Follow(c, s, Trigger(q));
    s := Follow(c, s, Run(q, Deliver));
  }

  /** If the trigger for p also matches q on its host, tester q can be a round ahead of the controller. */
  lemma Overrun(c: Setup, p: string, q: string) returns (s: State)
    requires Wf(c) && p in c.blocks && q in c.blocks && q != p && |c.totals| >= 2
    requires c.farm[q] == c.farm[p] && Grep(p, CommandLine(q))
    ensures Reachable(c, s) && s.testers.Keys == c.blocks.Keys && !InStep(s)
  {
    assert q in Reached(c, p);
    s := PostTwice(c, p, q);
    var blocks := BlocksAre(c, q);
    hide Reachable, Wf, Reached;
    s := Follow(c, s, Run(q, Wait));
    s := FinishBlock(c, s, q);
    s := Follow(c, s, Run(q, Wait));
    assert s.testers[q].i + 1 > s.round;
  }

  lemma BlocksAre(c: Setup, q: string) returns (n: nat)
    requires Wf(c) && q in c.blocks
    ensures n == |c.blocks[q]| == |c.totals|
  {
    n := |c.blocks[q]|;
  }

  lemma BusyBelow(blocks: seq<seq<nat>>, t: Tester)
    requires TesterInv(blocks, t)
    ensures t.i + (if t.busy then 1 else 0) <= |blocks|
  {
  }

  /** With a single round nobody can be ahead. */
  lemma OneRound(c: Setup, s: State)
    requires Wf(c) && Inv(c, s) && |c.totals| <= 1
    ensures InStep(s)
  {
    hide Wf, Inv, TesterInv, SentBy;
    InvExpected(c, s);
    forall q | q in s.testers
      ensures s.testers[q].i + (if s.testers[q].busy then 1 else 0) <= s.round
    {
      InvAt(c, s, q);
      UsedBySent(c.blocks[q], s.testers[q]);
      if s.round == 0 {
        NoneSent(c, q);
      } else {
        BusyBelow(c.blocks[q], s.testers[q]);
      }
    }
  }

  /** The testers keep in step with the controller in every run exactly when no trigger matches another
      tester on its host, or there is no second round to run into. */
  lemma InStepIff(c: Setup)
    requires Wf(c)
    ensures (forall s | Reachable(c, s) :: InStep(s)) <==> Isolated(c) || |c.totals| <= 1
    ensures (forall s | Reachable(c, s) :: InStep(s))
            <==> |c.totals| <= 1 || forall p, q | p in c.blocks && q in c.blocks && p != q && c.farm[p] == c.farm[q] ::
                                      !Grep(p, CommandLine(q))
  {
    IsolatedIff(c);
    hide Reachable, Inv, InStep, Reached, Wf, Grep, CommandLine;
    if Isolated(c) || |c.totals| <= 1 {
      forall s | Reachable(c, s)
        ensures InStep(s)
      {
        ReachableInv(c, s);
        if |c.totals| <= 1 {
          OneRound(c, s);
        } else {
          TriggerSafety(c, s);
        }
      }
    } else {
      var p, q := StrayTrigger(c);
      var s := Overrun(c, p, q);
    }
  }

  /** Ports on hosts of their own keep in step in every run, whatever their names. */
  lemma HostsApart(c: Setup)
    requires Wf(c) && forall p, q | p in c.blocks && q in c.blocks && p != q :: c.farm[p] != c.farm[q]
    ensures forall s | Reachable(c, s) :: InStep(s)
  {
    hide Reachable, InStep, Grep, CommandLine, Isolated, AddsUp, DistinctNames;
    InStepIff(c);
  }

  lemma StrayTrigger(c: Setup) returns (p: string, q: string)
    requires Wf(c) && !Isolated(c)
    ensures p in c.blocks && q in Reached(c, p) && q != p
    ensures q in c.blocks && q in c.farm && p in c.farm && c.farm[q] == c.farm[p] && Grep(p, CommandLine(q))
  {
    hide Wf, Grep, CommandLine;
    p :| p in c.blocks && Reached(c, p) != {p};
    ReachesItself(c, p);
    q :| q in Reached(c, p) && q != p;
  }

  /** The controller finishes its round; a signal that is pending stays so. */
  lemma FinishTriggers(c: Setup, s: State, q: string) returns (next: State)
    requires Wf(c) && Reachable(c, s) && q in c.blocks && s.testers.Keys == c.blocks.Keys && s.testers[q].pending
    ensures Reachable(c, next) && next.testers.Keys == c.blocks.Keys && next.testers[q].pending
    ensures next.left == {} && next.round == s.round && next.polling == s.polling
    decreases |s.left|
  {
    hide Reachable, Wf, Reached;
    if s.left == {} {
      next := s;
    } else {
      var p :| p in s.left;
      var after := Follow(c, s, Trigger(p));
      assert s.left == after.left + {p};
      next := FinishTriggers(c, after, q);
    }
  }

  /** Two rounds, or a stray trigger, and a signal can meet one that is still pending. */
  lemma SignalLost(c: Setup, q: string) returns (s: State)
    requires Wf(c) && q in c.blocks && |c.totals| >= 2
    ensures Reachable(c, s) && q in s.testers && s.testers[q].lost > 0
  {
    ReachesItself(c, q);
    InitReachable(c);
    hide Reachable, Wf, Reached;
    s := Follow(c, Init(c), Begin);
    s := Follow(c, s, Trigger(q));
    s := FinishTriggers(c, s, q);
    s := Follow(c, s, Poll);
    s := Follow(c, s, Begin);
    s := Follow(c, s, Trigger(q));
  }

  lemma SignalLostAtOnce(c: Setup, p: string, q: string) returns (s: State)
    requires Wf(c) && p in c.blocks && q in Reached(c, p) && q != p && |c.totals| >= 1
    ensures Reachable(c, s) && q in s.testers && s.testers[q].lost > 0
  {
    ReachesItself(c, q);
    InitReachable(c);
    hide Reachable, Wf, Reached;
    s := Follow(c, Init(c), Begin);
    s := Follow(c, s, Trigger(p));
    s := Follow(c, s, Trigger(q));
  }

  lemma NothingLost(c: Setup, s: State)
    requires Wf(c) && Inv(c, s) && (|c.totals| == 0 || (|c.totals| == 1 && Isolated(c)))
    ensures NoneLost(s)
  {
    hide Wf, Isolated, Inv, TesterInv, SentBy;
    InvExpected(c, s);
    forall q | q in s.testers
      ensures s.testers[q].lost == 0
    {
      InvAt(c, s, q);
      UsedBySent(c.blocks[q], s.testers[q]);
      if |c.totals| == 0 {
        NoneSent(c, q);
      } else {
        SentOnce(c, s, q);
      }
    }
  }

  /** Nothing waits for a tester before the next signal, so signals are safe in every run exactly when
      no tester gets a second one. */
  lemma NoneLostIff(c: Setup)
    requires Wf(c)
    ensures (forall s | Reachable(c, s) :: NoneLost(s))
            <==> c.ports == [] || |c.totals| == 0 || (|c.totals| == 1 && Isolated(c))
  {
    hide Reachable, Inv, Reached, Isolated;
    if c.ports == [] {
      forall s | Reachable(c, s)
        ensures NoneLost(s)
      {
        ReachableInv(c, s);
        InvExpected(c, s);
      }
    } else if |c.totals| == 0 || (|c.totals| == 1 && Isolated(c)) {
      forall s | Reachable(c, s)
        ensures NoneLost(s)
      {
        ReachableInv(c, s);
        NothingLost(c, s);
      }
    } else if |c.totals| == 1 {
      var p, q := StrayTrigger(c);
      var s := SignalLostAtOnce(c, p, q);
    } else {
      var s := SignalLost(c, c.ports[0]);
    }
  }

  // ---- the ports' own names

  function PortName(a: nat): string {
    "lp_" + Dotted(a)
  }

  /** The pattern matches at the start of the name. */
  predicate WildPrefix(p: string, q: string) {
    |p| <= |q| && forall i | 0 <= i < |p| :: p[i] == '.' || p[i] == q[i]
  }

  lemma PortNameShape(a: nat)
    ensures var p := PortName(a);
            && 4 <= |p| && p[0] == 'l' && p[1] == 'p' && p[2] == '_' && IsDigit(p[|p| - 1])
            && forall i | 3 <= i < |p| :: IsDigit(p[i]) || p[i] == '.'
  {
    DottedShape(a);
    DecReadsBack(a % 256);
    assert Dotted(a)[|Dotted(a)| - 1] == Dec(a % 256)[|Dec(a % 256)| - 1];
  }

  lemma TextAt(q: string)
    ensures |CommandLine(q)| == 20 + |q| + 6
    ensures forall i | 0 <= i < |q| :: CommandLine(q)[20 + i] == q[i]
  {
  }

  /** Only the name itself holds an l, and nothing after it holds a digit. */
  lemma LettersAt(q: string, k: nat)
    requires 4 <= |q| && q[1] == 'p' && q[2] == '_' && forall i | 3 <= i < |q| :: IsDigit(q[i]) || q[i] == '.'
    requires k < |CommandLine(q)|
    ensures CommandLine(q)[k] == 'l' ==> k == 20
    ensures IsDigit(CommandLine(q)[k]) ==> k < 20 + |q|
  {
  }

  /** The trigger for one address reaches the tester of another on its host exactly when the first name,
      dots standing for anything, is a prefix of the second. */
  lemma GrepPortIff(a: nat, b: nat)
    ensures Grep(PortName(a), CommandLine(PortName(b))) <==> WildPrefix(PortName(a), PortName(b))
  {
    var p, q := PortName(a), PortName(b);
    PortNameShape(a);
    PortNameShape(b);
    hide PortName, CommandLine;
    TextAt(q);
    var text := CommandLine(q);
    if WildPrefix(p, q) {
      assert MatchesAt(p, text, 20);
    }
    if Grep(p, text) {
      var k: nat :| k <= |text| && MatchesAt(p, text, k);
      assert p[0] == text[k + 0];
      LettersAt(q, k);
      assert p[|p| - 1] == text[20 + (|p| - 1)];
      LettersAt(q, 20 + (|p| - 1));
    }
  }

  function Dots(s: string): nat {
    if s == "" then 0 else Dots(s[1..]) + if s[0] == '.' then 1 else 0
  }

  lemma {:induction false} DotsConcat(s: string, t: string)
    ensures Dots(s + t) == Dots(s) + Dots(t)
  {
    if s == "" {
      assert s + t == t;
    } else {
      DotsConcat(s[1..], t);
      assert (s + t)[1..] == s[1..] + t;
    }
  }

  lemma {:induction false} DigitsNoDots(s: string)
    requires Digits(s)
    ensures Dots(s) == 0
  {
    if s == "" {
    } else {
      assert IsDigit(s[0]);
      DigitsNoDots(s[1..]);
    }
  }

  lemma QuadDots(w: string, x: string, y: string, z: string)
    requires Digits(w) && Digits(x) && Digits(y) && Digits(z)
    ensures Dots(w + "." + x + "." + y + "." + z) == 3
  {
    DigitsNoDots(w);
    DigitsNoDots(x);
    DigitsNoDots(y);
    DigitsNoDots(z);
    assert Dots(".") == 1;
    hide Dots, Digits;
    DotsConcat(w, ".");
    DotsConcat(w + ".", x);
    DotsConcat(w + "." + x, ".");
    DotsConcat(w + "." + x + ".", y);
    DotsConcat(w + "." + x + "." + y, ".");
    DotsConcat(w + "." + x + "." + y + ".", z);
  }

  lemma PortNameDots(a: nat)
    ensures Dots(PortName(a)) == 3
  {
    assert "lp_"[1..] == "p_" && "p_"[1..] == "_" && "_"[1..] == "";
    assert Dots("lp_") == 0;
    hide Dots, Dec;
    DecReadsBack(a / 0x100_0000 % 256);
    DecReadsBack(a / 0x1_0000 % 256);
    DecReadsBack(a / 0x100 % 256);
    DecReadsBack(a % 256);
    QuadDots(Dec(a / 0x100_0000 % 256), Dec(a / 0x1_0000 % 256), Dec(a / 0x100 % 256), Dec(a % 256));
    DotsConcat("lp_", Dotted(a));
  }

  lemma {:induction false} WildSame(p: string, q: string)
    requires |p| == |q| && WildPrefix(p, q)
    ensures Dots(q) <= Dots(p) && (Dots(q) == Dots(p) ==> p == q)
  {
    if p == "" {
    } else {
      WildSame(p[1..], q[1..]);
      assert p == [p[0]] + p[1..] && q == [q[0]] + q[1..];
    }
  }

  /** So ports named after addresses of one length are safe from each other ... */
  lemma OneLengthIsolated(c: Setup, n: nat)
    requires Wf(c) && forall p | p in c.blocks :: |p| == n && exists a :: p == PortName(a)
    ensures Isolated(c)
  {
    hide Wf, PortName, WildPrefix, Grep, CommandLine;
    forall p | p in c.blocks
      ensures Reached(c, p) == {p}
    {
      ReachesItself(c, p);
      forall q | q in Reached(c, p)
        ensures q == p
      {
        var a :| p == PortName(a);
        var b :| q == PortName(b);
        GrepPortIff(a, b);
        PortNameDots(a);
        PortNameDots(b);
        WildSame(p, q);
      }
    }
  }

  lemma Longer(head: string, net: string, octet: string, last: string)
    requires last != ""
    ensures head + (net + (octet + last)) == head + (net + octet) + last
    ensures WildPrefix(head + (net + octet), head + (net + octet) + last)
    ensures !WildPrefix(head + (net + octet) + last, head + (net + octet))
  {
    var name := head + (net + octet);
    assert |name + last| > |name|;
  }

  /** ... but of two neighbours such as .1 and .10, the first one's trigger also reaches the second. */
  lemma StrayNeighbours(net: nat, k: nat, e: nat)
    requires 0 < k && e < 10 && 10 * k + e < 256
    ensures var p, q := PortName(256 * net + k), PortName(256 * net + (10 * k + e));
            Grep(p, CommandLine(q)) && !Grep(q, CommandLine(p))
  {
    hide Dec, Dotted, NetName, Grep, CommandLine, WildPrefix, PortName;
    NameOf(net, k);
    NameOf(net, 10 * k + e);
    DecLonger(k, e);
    Longer("lp_", NetName(net), Dec(k), [Digit(e)]);
    GrepPortIff(256 * net + k, 256 * net + (10 * k + e));
    GrepPortIff(256 * net + (10 * k + e), 256 * net + k);
  }

  lemma NameOf(net: nat, k: nat)
    requires k < 256
    ensures PortName(256 * net + k) == "lp_" + (NetName(net) + Dec(k))
  {
    LastOctet(net, k);
    hide Dec, Dotted, NetName;
  }

  lemma DecLonger(k: nat, e: nat)
    requires 0 < k && e < 10
    ensures Dec(10 * k + e) == Dec(k) + [Digit(e)]
  {
  }

  function NetName(net: nat): string {
    Dec(net / 0x1_0000 % 256) + "." + Dec(net / 0x100 % 256) + "." + Dec(net % 256) + "."
  }

  lemma LastOctet(net: nat, k: nat)
    requires k < 256
    ensures Dotted(256 * net + k) == NetName(net) + Dec(k)
  {
    var a := 256 * net + k;
    DivModUnique(a, 256, net, k);
    assert a / 0x1_0000 == net / 0x100 && a / 0x100_0000 == net / 0x1_0000;
  }

  // ---- the whole run

  function SetupOf(ports: seq<string>, farm: map<string, string>, plan: seq<Round>): Setup {
    Setup(ports, farm,
          map p | p in ports :: Groups(LoadedBlocks(LoadSpec(FileText(LoadsOf(plan, p))))),
          TotalsOf(plan))
  }

  /** Every block fits the testers' arrays. */
  predicate Loadable(plan: seq<Round>, ports: seq<string>) {
    forall p | p in ports :: WithinArrays(LoadsOf(plan, p))
  }

  function LoadedBlocks(l: Loading): seq<seq<string>> {
    if l.Loaded? then l.blocks else []
  }

  lemma {:induction false} StreamPorts(switches: seq<seq<string>>, groups: nat, receivers: nat, ports: seq<string>)
    requires forall i, j | 0 <= i < |switches| && 0 <= j < |switches[i]| :: switches[i][j] in ports
    ensures forall k | 0 <= k < |Stream(switches, groups, receivers)| :: Stream(switches, groups, receivers)[k].port in ports
  {
    if switches == [] {
    } else {
      var init, last := switches[..|switches| - 1], switches[|switches| - 1];
      assert forall i, j | 0 <= i < |init| && 0 <= j < |init[i]| :: init[i][j] == switches[i][j];
      StreamPorts(init, groups, receivers, ports);
      if last != [] {
        forall k | 0 <= k < |SwitchStream(last, groups, receivers)|
          ensures SwitchStream(last, groups, receivers)[k].port in ports
        {
          GroupBelow(k, groups, receivers);
          HitAt(last, groups, receivers, k);
          assert switches[|switches| - 1][k % |last|] in ports;
        }
      }
    }
  }

  lemma {:induction false} SlicePorts(hits: seq<Hit>, b: nat, ports: seq<string>, t: nat)
    requires b > 0 && t < |Slices(hits, b)| && forall k | 0 <= k < |hits| :: hits[k].port in ports
    ensures forall k | 0 <= k < |Slices(hits, b)[t]| :: Slices(hits, b)[t][k].port in ports
    decreases |hits|
  {
    if |hits| > b && t > 0 {
      SlicePorts(hits[b..], b, ports, t - 1);
    }
  }

  lemma PlanAddsUp(hits: seq<Hit>, batch: int, ports: seq<string>, names: set<string>, t: nat)
    requires DistinctNames(ports) && names == (set p | p in ports)
    requires forall k | 0 <= k < |hits| :: hits[k].port in ports
    requires t < |Plan(hits, batch, names)|
    ensures var round := Plan(hits, batch, names)[t];
            && round.loads.Keys == names
            && round.total == Sum(seq(|ports|, i requires 0 <= i < |ports| => |round.loads[ports[i]].groups|))
  {
    var b := RoundSize(batch, |hits|);
    SlicePorts(hits, b, ports, t);
    var slice, round := Slices(hits, b)[t], Plan(hits, batch, names)[t];
    RoundAddsUp(slice, ports);
    assert seq(|ports|, i requires 0 <= i < |ports| => |round.loads[ports[i]].groups|) == Counts(slice, ports);
  }

  /** The planned and printed workload, loaded by the testers, is a setup of the protocol above. */
  lemma PlanSetsUp(ports: seq<string>, farm: map<string, string>, switches: seq<seq<string>>,
                   groups: nat, receivers: nat, batch: int)
    requires DistinctNames(ports) && forall i | 0 <= i < |ports| :: ports[i] in farm
    requires forall i, j | 0 <= i < |switches| && 0 <= j < |switches[i]| :: switches[i][j] in ports
    requires GroupsExist(switches, groups)
    requires Loadable(Plan(Stream(switches, groups, receivers), batch, set p | p in ports), ports)
    requires |Stream(switches, groups, receivers)| < UINT32
    ensures var hits := Stream(switches, groups, receivers);
            var c := SetupOf(ports, farm, Plan(hits, batch, set p | p in ports));
            && Wf(c) && c.blocks.Keys == (set p | p in ports)
            && Sum(c.totals) == NonEmpty(switches) * (groups * receivers)
            && forall p | p in c.blocks :: Flatten(c.blocks[p]) == Proj(hits, p)
  {
    hide Stream, Plan, LoadSpec, FileText, LoadsOf, Sum, Proj, Groups, WithinArrays;
    var hits, names := Stream(switches, groups, receivers), set p | p in ports;
    var plan := Plan(hits, batch, names);
    var c := SetupOf(ports, farm, plan);
    PlanFits(hits, batch, names);
    forall p | p in c.blocks
      ensures c.blocks[p] == BlocksOf(plan, p) && Flatten(c.blocks[p]) == Proj(hits, p)
    {
      TesterGetsItsPlan(switches, groups, receivers, batch, names, p);
    }
    StreamPorts(switches, groups, receivers, ports);
    forall t: nat | t < |c.totals|
      ensures c.totals[t] == Sum(BlockSizes(c, t))
    {
      PlanAddsUp(hits, batch, ports, names, t);
      assert BlockSizes(c, t) == seq(|ports|, i requires 0 <= i < |ports| => |plan[t].loads[ports[i]].groups|);
    }
    PlanConserves(switches, groups, receivers, batch, names);
  }

  /** When the last round has drained, and no signal strayed or was lost, every port has joined its part
      of the workload, in order, and the controller expects exactly that many joins. */
  lemma McastRun(ports: seq<string>, farm: map<string, string>, switches: seq<seq<string>>,
                 groups: nat, receivers: nat, batch: int, c: Setup, s: State)
    requires DistinctNames(ports) && forall i | 0 <= i < |ports| :: ports[i] in farm
    requires forall i, j | 0 <= i < |switches| && 0 <= j < |switches[i]| :: switches[i][j] in ports
    requires GroupsExist(switches, groups)
    requires Loadable(Plan(Stream(switches, groups, receivers), batch, set p | p in ports), ports)
    requires |Stream(switches, groups, receivers)| < UINT32
    requires c == SetupOf(ports, farm, Plan(Stream(switches, groups, receivers), batch, set p | p in ports))
    requires Wf(c) && Isolated(c) && Reachable(c, s)
    requires s.polling && s.round == |c.totals| && Drained(c, s) && NoneLost(s)
    ensures forall p | p in ports :: p in s.testers && s.testers[p].joined == Proj(Stream(switches, groups, receivers), p)
    ensures s.expected == NonEmpty(switches) * (groups * receivers)
  {
    hide Loadable, SetupOf, Stream, Plan, Isolated, Reachable, Wf, Inv, InStep, Sum, Proj, Drained, DistinctNames, Groups, Flatten, JoinsOf;
    PlanSetsUp(ports, farm, switches, groups, receivers, batch);
    TriggerSafety(c, s);
    forall p | p in ports
      ensures p in s.testers && s.testers[p].joined == Proj(Stream(switches, groups, receivers), p)
    {
      DrainedJoins(c, s, p);
      assert c.blocks[p][..s.round] == c.blocks[p];
    }
    assert c.totals[..s.round] == c.totals;
  }
}
