/** The multicast workload: (group, receiver) pairs round robin over the ports of each switch, cut into
    rounds of a fixed number of joins. */
module McastPlans {
  import opened Common

  const FIRST_GROUP: nat := 0xEF00_0001   // 239.0.0.1
  const LAST_ADDRESS: nat := 0xFFFF_FFFF

  datatype Hit = Hit(port: string, group: nat)
  datatype Load = Load(nGroups: nat, groups: seq<nat>)
  datatype Round = Round(total: nat, loads: map<string, Load>)

  // ---- what the plan is of

  /** Assignment k of a switch goes to port k mod n, groups in order, `receivers` to each. */
  function SwitchStream(lports: seq<string>, groups: nat, receivers: nat): seq<Hit>
    requires lports != []
  {
    seq(groups * receivers, k requires 0 <= k < groups * receivers =>
          if receivers == 0 then Hit("", 0) else Hit(lports[k % |lports|], FIRST_GROUP + k / receivers))
  }

  function Stream(switches: seq<seq<string>>, groups: nat, receivers: nat): seq<Hit> {
    if switches == [] then []
    else
      var last := switches[|switches| - 1];
      Stream(switches[..|switches| - 1], groups, receivers)
      + if last == [] then [] else SwitchStream(last, groups, receivers)
  }

  /** The groups assigned to one port, in order. */
  function Proj(hits: seq<Hit>, port: string): seq<nat> {
    if hits == [] then []
    else
      var last := hits[|hits| - 1];
      Proj(hits[..|hits| - 1], port) + if last.port == port then [last.group] else []
  }

  function LoadOf(hits: seq<Hit>, port: string): Load {
    Load(|Proj(hits, port)|, Proj(hits, port))
  }

  function RoundOf(hits: seq<Hit>, ports: set<string>): Round {
    Round(|hits|, map p | p in ports :: LoadOf(hits, p))
  }

  /** Consecutive slices of b, the last one shorter perhaps, none empty. */
  function Slices(hits: seq<Hit>, b: nat): seq<seq<Hit>>
    requires b > 0
    decreases |hits|
  {
    if hits == [] then []
    else if |hits| <= b then [hits]
    else [hits[..b]] + Slices(hits[b..], b)
  }

  /** The size of a round; a batch below one never fills, so everything lands in one round. */
  function RoundSize(batch: int, hits: nat): (b: nat)
    ensures b > 0
  {
    if batch >= 1 then batch else hits + 1
  }

  function Rounds(slices: seq<seq<Hit>>, ports: set<string>): seq<Round> {
    seq(|slices|, t requires 0 <= t < |slices| => RoundOf(slices[t], ports))
  }

  function Plan(hits: seq<Hit>, batch: int, ports: set<string>): seq<Round> {
    Rounds(Slices(hits, RoundSize(batch, |hits|)), ports)
  }

  // ---- the planner

  lemma SlicesSplit(a: seq<Hit>, c: seq<Hit>, b: nat)
    requires b > 0 && |a| % b == 0
    ensures Slices(a + c, b) == Slices(a, b) + Slices(c, b)
    decreases |a|
  {
    if a == [] {
      assert a + c == c;
    } else if c == [] {
      assert a + c == a;
    } else {
      if |a| <= b {
        FirstMultiple(|a|, b);
      }
      LastMultiple(|a|, b);
      assert (a + c)[..b] == a[..b] && (a + c)[b..] == a[b..] + c;
      SlicesSplit(a[b..], c, b);
      if |a| == b {
        assert a[..b] == a && a[b..] == [];
      }
    }
  }

  lemma ProjSnoc(hits: seq<Hit>, hit: Hit, port: string)
    ensures Proj(hits + [hit], port) == Proj(hits, port) + if hit.port == port then [hit.group] else []
  {
    assert (hits + [hit])[..|hits|] == hits;
  }

  lemma {:induction false} ProjConcat(a: seq<Hit>, c: seq<Hit>, port: string)
    ensures Proj(a + c, port) == Proj(a, port) + Proj(c, port)
    decreases |c|
  {
    if c == [] {
      assert a + c == a;
    } else {
      var init := c[..|c| - 1];
      ProjConcat(a, init, port);
      assert (a + c)[..|a + c| - 1] == a + init;
      assert Proj(a, port) + (Proj(init, port) + Proj(c, port)[|Proj(init, port)|..])
             == Proj(a, port) + Proj(init, port) + Proj(c, port)[|Proj(init, port)|..];
    }
  }

  /** Where the loops are after `done`: the full rounds are out, the rest is in the current one. */
  ghost predicate PlanAt(done: seq<Hit>, batch: int, ports: set<string>,
                         rounds: seq<Round>, current: map<string, Load>, total: nat) {
    var out := |done| - total;
    && 0 <= out && (if batch < 1 then out == 0 else out % batch == 0 && total < batch)
    && rounds == (if batch < 1 then [] else Rounds(Slices(done[..out], batch), ports))
    && RoundOf(done[out..], ports) == Round(total, current)
  }

  function EmptyLoads(ports: set<string>): map<string, Load> {
    map p | p in ports :: Load(0, [])
  }

  function AddLoad(loads: map<string, Load>, hit: Hit): map<string, Load>
    requires hit.port in loads
  {
    loads[hit.port := Load(loads[hit.port].nGroups + 1, loads[hit.port].groups + [hit.group])]
  }

  lemma RoundSnoc(hits: seq<Hit>, hit: Hit, ports: set<string>)
    requires hit.port in ports
    ensures RoundOf(hits + [hit], ports) == Round(|hits| + 1, AddLoad(RoundOf(hits, ports).loads, hit))
  {
    forall p | p in ports
      ensures LoadOf(hits + [hit], p) == AddLoad(RoundOf(hits, ports).loads, hit)[p]
    {
      ProjSnoc(hits, hit, p);
    }
  }

  lemma PlanStart(batch: int, ports: set<string>)
    ensures PlanAt([], batch, ports, [], EmptyLoads(ports), 0)
  {
  }

  lemma FullRound(done: seq<Hit>, out: nat, batch: nat, ports: set<string>)
    requires batch >= 1 && out + batch == |done| && out % batch == 0
    ensures |done| % batch == 0
    ensures Rounds(Slices(done, batch), ports) == Rounds(Slices(done[..out], batch), ports) + [RoundOf(done[out..], ports)]
  {
    NextMultiple(out, batch);
    assert done == done[..out] + done[out..];
    SlicesSplit(done[..out], done[out..], batch);
    assert Slices(done[out..], batch) == [done[out..]];
    hide Slices, RoundOf;
    var a := Slices(done[..out], batch);
    assert Rounds(a + [done[out..]], ports) == Rounds(a, ports) + [RoundOf(done[out..], ports)];
  }

  lemma PlanStep(done: seq<Hit>, batch: int, ports: set<string>,
                 rounds: seq<Round>, current: map<string, Load>, total: nat, hit: Hit)
    requires hit.port in ports && PlanAt(done, batch, ports, rounds, current, total)
    ensures hit.port in current
    ensures total + 1 != batch ==> PlanAt(done + [hit], batch, ports, rounds, AddLoad(current, hit), total + 1)
    ensures total + 1 == batch ==>
              PlanAt(done + [hit], batch, ports, rounds + [Round(total + 1, AddLoad(current, hit))], EmptyLoads(ports), 0)
  {
    hide Slices, Rounds, AddLoad;
    var out, all := |done| - total, done + [hit];
    RoundSnoc(done[out..], hit, ports);
    assert all[out..] == done[out..] + [hit] && all[..out] == done[..out];
    if total + 1 == batch {
      FullRound(all, out, batch, ports);
      assert all[..|all|] == all && all[|all|..] == [];
    }
  }

  lemma PlanEnd(done: seq<Hit>, batch: int, ports: set<string>,
                rounds: seq<Round>, current: map<string, Load>, total: nat)
    requires PlanAt(done, batch, ports, rounds, current, total)
    ensures (if total != 0 then rounds + [Round(total, current)] else rounds) == Plan(done, batch, ports)
  {
    var out := |done| - total;
    var b := RoundSize(batch, |done|);
    assert done == done[..out] + done[out..];
    if batch >= 1 {
      SlicesSplit(done[..out], done[out..], b);
    } else {
      assert done[..out] == [];
    }
    assert Slices(done, b) == Slices(done[..out], b) + Slices(done[out..], b);
    if total != 0 {
      assert Slices(done[out..], b) == [done[out..]];
      assert Rounds(Slices(done[..out], b) + [done[out..]], ports)
             == Rounds(Slices(done[..out], b), ports) + [RoundOf(done[out..], ports)];
    }
  }

  /** _lport_idx_inc */
  function IdxInc(idx: nat, max: nat): nat
    requires max > 0
  {
    (idx + 1) % max
  }

  lemma IdxFollows(k: nat, max: nat)
    requires max > 0
    ensures IdxInc(k % max, max) == (k + 1) % max
  {
    IdxWraps(k / max, k % max, max, k);
  }

  lemma IdxWraps(q: nat, r: nat, max: nat, k: nat)
    requires r < max && k == max * q + r
    ensures IdxInc(r, max) == (k + 1) % max
  {
    if r + 1 == max {
      assert k + 1 == (q + 1) * max;
      DivModUnique(k + 1, max, q + 1, 0);
      DivModUnique(r + 1, max, 1, 0);
    } else {
      DivModUnique(k + 1, max, q, r + 1);
      DivModUnique(r + 1, max, 0, r + 1);
    }
  }

  /** Index g*receivers + i belongs to group g. */
  lemma GroupIndex(g: nat, i: nat, groups: nat, receivers: nat)
    requires g < groups && i < receivers
    ensures g * receivers + i < groups * receivers && (g * receivers + i) / receivers == g
  {
    MulStep(g, receivers, groups);
    DivModUnique(g * receivers + i, receivers, g, i);
  }

  lemma HitAt(lports: seq<string>, groups: nat, receivers: nat, k: nat)
    requires lports != [] && receivers > 0 && k < groups * receivers
    ensures k < |SwitchStream(lports, groups, receivers)|
    ensures SwitchStream(lports, groups, receivers)[k] == Hit(lports[k % |lports|], FIRST_GROUP + k / receivers)
  {
  }

  /** Whether the list of group addresses of a non-empty switch can be built. */
  predicate GroupsExist(switches: seq<seq<string>>, groups: nat) {
    groups == 0 || FIRST_GROUP + groups - 1 <= LAST_ADDRESS || forall i | 0 <= i < |switches| :: switches[i] == []
  }

  /** The loops over the groups and receivers of one switch. */
  method PlanSwitch(lports: seq<string>, groups: nat, receivers: nat, batch: int, ports: set<string>,
                    rounds0: seq<Round>, current0: map<string, Load>, total0: nat, ghost done0: seq<Hit>)
    returns (rounds: seq<Round>, current: map<string, Load>, total: nat)
    requires lports != [] && forall j | 0 <= j < |lports| :: lports[j] in ports
    requires PlanAt(done0, batch, ports, rounds0, current0, total0)
    ensures PlanAt(done0 + SwitchStream(lports, groups, receivers), batch, ports, rounds, current, total)
  {
    hide PlanAt, SwitchStream, IdxInc;
    rounds, current, total := rounds0, current0, total0;
    ghost var stream := SwitchStream(lports, groups, receivers);
    StreamLength(lports, groups, receivers);
    var lportIdx := 0;
    ghost var k := 0;
    assert done0 + stream[..0] == done0;
    for g := 0 to groups
      invariant k == g * receivers && k <= |stream| && lportIdx == k % |lports|
      invariant PlanAt(done0 + stream[..k], batch, ports, rounds, current, total)
    {
      MulStep(g, receivers, groups);
      for i := 0 to receivers
        invariant k == g * receivers + i && k <= |stream| && lportIdx == k % |lports|
        invariant PlanAt(done0 + stream[..k], batch, ports, rounds, current, total)
      {
        GroupIndex(g, i, groups, receivers);
        HitAt(lports, groups, receivers, k);
        IdxFollows(k, |lports|);
        var hit := Hit(lports[lportIdx], FIRST_GROUP + g);
        lportIdx := IdxInc(lportIdx, |lports|);
        PlanStep(done0 + stream[..k], batch, ports, rounds, current, total, hit);
        assert done0 + stream[..k + 1] == done0 + stream[..k] + [hit];
        current := AddLoad(current, hit);
        total := total + 1;
        if total == batch {
          rounds := rounds + [Round(total, current)];
          current := EmptyLoads(ports);
          total := 0;
        }
        k := k + 1;
      }
    }
    assert stream[..k] == stream;
  }

  lemma StreamLength(lports: seq<string>, groups: nat, receivers: nat)
    requires lports != []
    ensures |SwitchStream(lports, groups, receivers)| == groups * receivers
  {
  }

  lemma MulStep(g: nat, receivers: nat, groups: nat)
    requires g < groups
    ensures (g + 1) * receivers == g * receivers + receivers && (g + 1) * receivers <= groups * receivers
  {
  }

  // ---- where each assignment falls

  lemma {:induction false} SliceAt(hits: seq<Hit>, b: nat, t: nat)
    requires b > 0 && t < |Slices(hits, b)|
    ensures t * b <= |hits| && Slices(hits, b)[t] == hits[t * b..Min((t + 1) * b, |hits|)]
    decreases |hits|
  {
    if t == 0 {
      if |hits| <= b {
        assert hits[0..|hits|] == hits;
      }
    } else {
      SliceAt(hits[b..], b, t - 1);
      MulSucc(b, t - 1);
      MulSucc(b, t);
      hide Slices;
      ShiftSlice(hits, b, (t - 1) * b, Min(t * b, |hits| - b));
    }
  }

  lemma ShiftSlice(hits: seq<Hit>, b: nat, i: nat, j: nat)
    requires b <= |hits| && i <= j <= |hits| - b
    ensures hits[b..][i..j] == hits[b + i..b + j]
  {
  }

  function NonEmpty(switches: seq<seq<string>>): nat {
    if switches == [] then 0
    else NonEmpty(switches[..|switches| - 1]) + if switches[|switches| - 1] == [] then 0 else 1
  }

  lemma {:induction false} NonEmptyCounts(switches: seq<seq<string>>)
    ensures NonEmpty(switches) == |set i | 0 <= i < |switches| && switches[i] != []|
  {
    if switches == [] {
    } else {
      var n := |switches| - 1;
      NonEmptyCounts(switches[..n]);
      var before, now := set i | 0 <= i < n && switches[..n][i] != [], set i | 0 <= i < |switches| && switches[i] != [];
      assert now == before + if switches[n] == [] then {} else {n};
      assert n !in before;
    }
  }

  lemma {:induction false} StreamSize(switches: seq<seq<string>>, groups: nat, receivers: nat, m: nat)
    requires m == groups * receivers
    ensures |Stream(switches, groups, receivers)| == NonEmpty(switches) * m
  {
    hide SwitchStream;
    if switches == [] {
    } else {
      var init, last := switches[..|switches| - 1], switches[|switches| - 1];
      StreamSize(init, groups, receivers, m);
      MulSucc(m, NonEmpty(init));
      if last != [] {
        StreamLength(last, groups, receivers);
      }
    }
  }

  lemma {:induction false} StreamIndex(switches: seq<seq<string>>, groups: nat, receivers: nat, w: nat, j: nat)
    requires w < |switches| && switches[w] != [] && j < |SwitchStream(switches[w], groups, receivers)|
    ensures var before := |Stream(switches[..w], groups, receivers)|;
            && before + j < |Stream(switches, groups, receivers)|
            && Stream(switches, groups, receivers)[before + j] == SwitchStream(switches[w], groups, receivers)[j]
    decreases |switches|
  {
    hide SwitchStream;
    var init := switches[..|switches| - 1];
    if w < |init| {
      assert init[..w] == switches[..w] && init[w] == switches[w];
      StreamIndex(init, groups, receivers, w, j);
    }
  }

  /** How many assignments come before receiver i of group g on the w-th switch. */
  function Before(switches: seq<seq<string>>, groups: nat, receivers: nat, w: nat, g: nat, i: nat): nat
    requires w < |switches|
  {
    NonEmpty(switches[..w]) * (groups * receivers) + (g * receivers + i)
  }

  /** The switches are taken in the order listed, empty ones skipped; of a switch's assignments, the one with
      index j goes to port j modulo its ports, groups in order. */
  lemma StreamAt(switches: seq<seq<string>>, groups: nat, receivers: nat, w: nat, g: nat, i: nat)
    requires w < |switches| && switches[w] != [] && g < groups && i < receivers
    ensures var k := NonEmpty(switches[..w]) * (groups * receivers) + (g * receivers + i);
            && k < |Stream(switches, groups, receivers)|
            && Stream(switches, groups, receivers)[k]
               == Hit(switches[w][(g * receivers + i) % |switches[w]|], FIRST_GROUP + g)
  {
    hide SwitchStream, NonEmpty, Stream;
    GroupIndex(g, i, groups, receivers);
    StreamLength(switches[w], groups, receivers);
    StreamSize(switches[..w], groups, receivers, groups * receivers);
    StreamIndex(switches, groups, receivers, w, g * receivers + i);
    HitAt(switches[w], groups, receivers, g * receivers + i);
  }

  /** Assignment a falls in round a / b of rounds of b, behind what the round has had for its port. */
  lemma AssignmentInRound(hits: seq<Hit>, batch: int, ports: set<string>, a: nat)
    requires a < |hits| && hits[a].port in ports
    ensures a / RoundSize(batch, |hits|) * RoundSize(batch, |hits|) <= a
    ensures var b, plan, port := RoundSize(batch, |hits|), Plan(hits, batch, ports), hits[a].port;
            var earlier := |Proj(hits[a / b * b..a], port)|;
            && a / b < |plan| && plan[a / b].loads.Keys == ports
            && earlier < |plan[a / b].loads[port].groups| && plan[a / b].loads[port].groups[earlier] == hits[a].group
  {
    hide Slices, Proj;
    var b := RoundSize(batch, |hits|);
    InSlices(hits, b, a);
    hide RoundSize;
    AtQuotient(hits, b, a, a / b);
  }

  lemma AtQuotient(hits: seq<Hit>, b: nat, a: nat, t: nat)
    requires b > 0 && a < |hits| && t == a / b < |Slices(hits, b)|
    ensures var port, earlier := hits[a].port, |Proj(hits[a / b * b..a], hits[a].port)|;
            && earlier < |Proj(Slices(hits, b)[t], port)| && Proj(Slices(hits, b)[t], port)[earlier] == hits[a].group
  {
    hide Slices, Proj;
    AroundQuotient(a, b);
    SliceAt(hits, b, t);
    ProjAt(hits, t * b, a, Min((t + 1) * b, |hits|));
  }

  lemma AroundQuotient(a: nat, b: nat)
    requires b > 0
    ensures a / b * b <= a < (a / b + 1) * b
  {
    assert a == b * (a / b) + a % b;
    MulSucc(b, a / b);
  }

  lemma ProjAt(hits: seq<Hit>, start: nat, a: nat, end: nat)
    requires start <= a < end <= |hits|
    ensures var port := hits[a].port;
            && |Proj(hits[start..a], port)| < |Proj(hits[start..end], port)|
            && Proj(hits[start..end], port)[|Proj(hits[start..a], port)|] == hits[a].group
  {
    hide Proj;
    var port := hits[a].port;
    assert hits[start..a + 1] == hits[start..a] + [hits[a]];
    assert hits[start..end] == hits[start..a + 1] + hits[a + 1..end];
    ProjConcat(hits[start..a + 1], hits[a + 1..end], port);
    ProjSnoc(hits[start..a], hits[a], port);
  }

  lemma InSlices(hits: seq<Hit>, b: nat, a: nat)
    requires b > 0 && a < |hits|
    ensures a / b < |Slices(hits, b)|
  {
    SliceCount(hits, b);
    QuotientLess(a, b, |Slices(hits, b)|);
  }

  lemma QuotientLess(a: nat, b: nat, n: nat)
    requires b > 0 && a < b * n
    ensures a / b < n
  {
    assert a == b * (a / b) + a % b;
    FactorGrows(b, a / b - n);
  }

  lemma {:induction false} SliceCount(hits: seq<Hit>, b: nat)
    requires b > 0
    ensures b * |Slices(hits, b)| < |hits| + b && |hits| <= b * |Slices(hits, b)|
    decreases |hits|
  {
    if |hits| > b {
      SliceCount(hits[b..], b);
      MulSucc(b, |Slices(hits[b..], b)|);
    }
  }

  /** Receiver i of group g on the w-th switch: a port of that switch, in turn, joins the group in the round
      that the assignments before it have filled up to. */
  ghost predicate PlannedAt(rounds: seq<Round>, switches: seq<seq<string>>, groups: nat, receivers: nat, batch: int,
                            w: nat, g: nat, i: nat)
    requires w < |switches| && switches[w] != []
  {
    var t := Before(switches, groups, receivers, w, g, i) / RoundSize(batch, NonEmpty(switches) * (groups * receivers));
    var port := switches[w][(g * receivers + i) % |switches[w]|];
    t < |rounds| && port in rounds[t].loads && FIRST_GROUP + g in rounds[t].loads[port].groups
  }

  lemma StreamPlanned(switches: seq<seq<string>>, groups: nat, receivers: nat, batch: int, ports: set<string>,
                      w: nat, g: nat, i: nat)
    requires w < |switches| && switches[w] != [] && g < groups && i < receivers
    requires forall j | 0 <= j < |switches[w]| :: switches[w][j] in ports
    ensures PlannedAt(Plan(Stream(switches, groups, receivers), batch, ports), switches, groups, receivers, batch, w, g, i)
  {
    hide Plan, Stream, NonEmpty, RoundSize;
    var hits, a := Stream(switches, groups, receivers), Before(switches, groups, receivers, w, g, i);
    StreamSize(switches, groups, receivers, groups * receivers);
    StreamAt(switches, groups, receivers, w, g, i);
    hide Before;
    HitPlanned(hits, batch, ports, a, hits[a]);
  }

  lemma HitPlanned(hits: seq<Hit>, batch: int, ports: set<string>, a: nat, hit: Hit)
    requires a < |hits| && hits[a] == hit && hit.port in ports
    ensures var t, plan := a / RoundSize(batch, |hits|), Plan(hits, batch, ports);
            t < |plan| && hit.port in plan[t].loads && hit.group in plan[t].loads[hit.port].groups
  {
    hide Plan, Proj;
    AssignmentInRound(hits, batch, ports, a);
  }

  /** _build_config_testers */
  method BuildConfigTesters(ports: set<string>, switches: seq<seq<string>>, groupCount: int, receiverCount: int, batch: int)
    returns (r: Result<seq<Round>>)
    requires forall i, j | 0 <= i < |switches| && 0 <= j < |switches[i]| :: switches[i][j] in ports
    ensures r.Success? <==> GroupsExist(switches, Clamp(groupCount))
    ensures r.Success? ==> r.value == Plan(Stream(switches, Clamp(groupCount), Clamp(receiverCount)), batch, ports)
    ensures r.Success? ==>
              forall w: nat, g: nat, i: nat | w < |switches| && switches[w] != [] && g < groupCount && i < receiverCount ::
                PlannedAt(r.value, switches, Clamp(groupCount), Clamp(receiverCount), batch, w, g, i)
  {
    hide PlanAt, Plan, SwitchStream, PlannedAt;
    var groups, receivers := Clamp(groupCount), Clamp(receiverCount);
    var rounds, current, total := [], EmptyLoads(ports), 0;
    PlanStart(batch, ports);
    for w := 0 to |switches|
      invariant PlanAt(Stream(switches[..w], groups, receivers), batch, ports, rounds, current, total)
      invariant groups == 0 || FIRST_GROUP + groups - 1 <= LAST_ADDRESS || forall i | 0 <= i < w :: switches[i] == []
    {
      var lports := switches[w];
      ghost var done := Stream(switches[..w], groups, receivers);
      assert switches[..w + 1][..w] == switches[..w];
      if |lports| == 0 {
        assert Stream(switches[..w + 1], groups, receivers) == done + [] == done;
        continue;
      }
      if groups > 0 && FIRST_GROUP + groups - 1 > LAST_ADDRESS {
        return Failure(AddressOverflow);
      }
      rounds, current, total := PlanSwitch(lports, groups, receivers, batch, ports, rounds, current, total, done);
    }
    assert switches[..|switches|] == switches;
    PlanEnd(Stream(switches, groups, receivers), batch, ports, rounds, current, total);
    if total != 0 {
      rounds := rounds + [Round(total, current)];
    }
    forall w: nat, g: nat, i: nat | w < |switches| && switches[w] != [] && g < groupCount && i < receiverCount
      ensures PlannedAt(rounds, switches, groups, receivers, batch, w, g, i)
    {
      StreamPlanned(switches, groups, receivers, batch, ports, w, g, i);
    }
    return Success(rounds);
  }

  // ---- what the plan is worth

  /** The group lists of one port, round by round. */
  function BlocksOf(rounds: seq<Round>, port: string): seq<seq<nat>>
    requires forall t | 0 <= t < |rounds| :: port in rounds[t].loads
  {
    seq(|rounds|, t requires 0 <= t < |rounds| => rounds[t].loads[port].groups)
  }

  function Projections(slices: seq<seq<Hit>>, port: string): seq<seq<nat>> {
    seq(|slices|, t requires 0 <= t < |slices| => Proj(slices[t], port))
  }

  lemma {:induction false} SlicesConserve(hits: seq<Hit>, b: nat, port: string)
    requires b > 0
    ensures Flatten(Projections(Slices(hits, b), port)) == Proj(hits, port)
    decreases |hits|
  {
    if hits == [] {
    } else if |hits| <= b {
      assert Projections([hits], port) == [Proj(hits, port)];
      assert Flatten([Proj(hits, port)]) == Proj(hits, port) + Flatten([]);
    } else {
      hide Proj, Flatten;
      SlicesConserve(hits[b..], b, port);
      assert hits == hits[..b] + hits[b..];
      ProjConcat(hits[..b], hits[b..], port);
      assert Slices(hits, b) == [hits[..b]] + Slices(hits[b..], b);
      hide Slices;
      FirstProjection(hits[..b], Slices(hits[b..], b), port);
    }
  }

  lemma FirstProjection(first: seq<Hit>, rest: seq<seq<Hit>>, port: string)
    ensures Flatten(Projections([first] + rest, port)) == Proj(first, port) + Flatten(Projections(rest, port))
  {
    hide Proj;
    assert Projections([first] + rest, port) == [Proj(first, port)] + Projections(rest, port);
    assert Flatten([Proj(first, port)] + Projections(rest, port)) == Proj(first, port) + Flatten(Projections(rest, port));
  }

  /** Whatever the batch size, a port joins the same groups in the same order: its part of the
      unbatched stream. */
  lemma PlanBatchIndependent(hits: seq<Hit>, batch: int, ports: set<string>, port: string)
    requires port in ports
    ensures Flatten(BlocksOf(Plan(hits, batch, ports), port)) == Proj(hits, port)
  {
    var slices := Slices(hits, RoundSize(batch, |hits|));
    SlicesConserve(hits, RoundSize(batch, |hits|), port);
    assert BlocksOf(Rounds(slices, ports), port) == Projections(slices, port);
  }

  lemma {:induction false} SliceSizes(hits: seq<Hit>, b: nat, t: nat)
    requires b > 0 && t < |Slices(hits, b)|
    ensures 0 < |Slices(hits, b)[t]| <= b && (t + 1 < |Slices(hits, b)| ==> |Slices(hits, b)[t]| == b)
    decreases |hits|
  {
    if |hits| > b && t > 0 {
      SliceSizes(hits[b..], b, t - 1);
    }
  }

  /** Every round's total is what its loads add up to; all rounds but the last are full and none is
      empty; there are as many as needed. */
  lemma PlanTotals(hits: seq<Hit>, batch: int, ports: set<string>, t: nat)
    requires t < |Plan(hits, batch, ports)|
    ensures var plan, b := Plan(hits, batch, ports), RoundSize(batch, |hits|);
            && b * (|plan| - 1) < |hits| <= b * |plan|
            && 0 < plan[t].total <= b && (t + 1 < |plan| ==> plan[t].total == b)
            && plan[t].loads.Keys == ports
            && (forall p | p in ports :: plan[t].loads[p].nGroups == |plan[t].loads[p].groups| <= plan[t].total)
  {
    var slices := Slices(hits, RoundSize(batch, |hits|));
    SliceSizes(hits, RoundSize(batch, |hits|), t);
    SliceCount(hits, RoundSize(batch, |hits|));
    MulSucc(RoundSize(batch, |hits|), |slices| - 1);
    forall p | p in ports {
      ProjShort(slices[t], p);
    }
  }

  lemma {:induction false} ProjShort(hits: seq<Hit>, port: string)
    ensures |Proj(hits, port)| <= |hits|
  {
    if hits == [] {
    } else {
      ProjShort(hits[..|hits| - 1], port);
    }
  }

  function TotalsOf(rounds: seq<Round>): seq<int> {
    seq(|rounds|, t requires 0 <= t < |rounds| => rounds[t].total)
  }

  lemma {:induction false} TotalsConserve(hits: seq<Hit>, b: nat, ports: set<string>)
    requires b > 0
    ensures Sum(TotalsOf(Rounds(Slices(hits, b), ports))) == |hits|
    decreases |hits|
  {
    var totals := TotalsOf(Rounds(Slices(hits, b), ports));
    if |hits| > b {
      TotalsConserve(hits[b..], b, ports);
      assert totals[1..] == TotalsOf(Rounds(Slices(hits[b..], b), ports));
    } else if |hits| > 0 {
      assert totals == [|hits|] && totals[1..] == [];
    }
  }

  /** The totals of all rounds add up to one join per receiver, group and non-empty switch. */
  lemma PlanConserves(switches: seq<seq<string>>, groups: nat, receivers: nat, batch: int, ports: set<string>)
    ensures var hits := Stream(switches, groups, receivers);
            Sum(TotalsOf(Plan(hits, batch, ports))) == NonEmpty(switches) * (groups * receivers)
  {
    var hits := Stream(switches, groups, receivers);
    TotalsConserve(hits, RoundSize(batch, |hits|), ports);
    StreamSize(switches, groups, receivers, groups * receivers);
  }

  // ---- a round adds up over its ports

  predicate DistinctNames(names: seq<string>) {
    forall i, j | 0 <= i < j < |names| :: names[i] != names[j]
  }

  function Counts(hits: seq<Hit>, names: seq<string>): seq<int> {
    seq(|names|, i requires 0 <= i < |names| => |Proj(hits, names[i])|)
  }

  lemma {:induction false} ZeroSum(n: nat)
    ensures Sum(seq(n, i => 0)) == 0
  {
    if n == 0 {
    } else {
      ZeroSum(n - 1);
      assert seq(n, i => 0)[1..] == seq(n - 1, i => 0);
    }
  }

  lemma {:induction false} RoundAddsUp(hits: seq<Hit>, names: seq<string>)
    requires DistinctNames(names) && forall k | 0 <= k < |hits| :: hits[k].port in names
    ensures Sum(Counts(hits, names)) == |hits|
    decreases |hits|
  {
    if hits == [] {
      assert Counts(hits, names) == seq(|names|, i => 0);
      ZeroSum(|names|);
    } else {
      var init, last := hits[..|hits| - 1], hits[|hits| - 1];
      assert forall k | 0 <= k < |init| :: init[k] == hits[k];
      RoundAddsUp(init, names);
      var i :| 0 <= i < |names| && names[i] == last.port;
      var before := Counts(init, names);
      assert Counts(hits, names) == before[i := before[i] + 1];
      SumUpdate(before, i, before[i] + 1);
    }
  }

  // ---- fairness

  /** How many of the first n assignments of a switch go to its port j. */
  function Share(n: nat, ports: nat, j: nat): nat
    requires j < ports
  {
    (n + ports - 1 - j) / ports
  }

  lemma ShareStep(n: nat, ports: nat, j: nat)
    requires j < ports
    ensures Share(0, ports, j) == 0
    ensures Share(n + 1, ports, j) == Share(n, ports, j) + if n % ports == j then 1 else 0
  {
    var q, r := n / ports, n % ports;
    assert n == ports * q + r;
    DivModUnique(ports - 1 - j, ports, 0, ports - 1 - j);
    if r < j {
      DivModUnique(n + ports - 1 - j, ports, q, r + ports - 1 - j);
      DivModUnique(n + ports - j, ports, q, r + ports - j);
    } else if r == j {
      DivModUnique(n + ports - 1 - j, ports, q, ports - 1);
      DivModUnique(n + ports - j, ports, q + 1, 0);
    } else {
      DivModUnique(n + ports - 1 - j, ports, q + 1, r - 1 - j);
      DivModUnique(n + ports - j, ports, q + 1, r - j);
    }
  }

  /** At every moment each port of a switch has its share ... */
  lemma {:induction false} RoundRobinShare(lports: seq<string>, groups: nat, receivers: nat, n: nat, j: nat)
    requires DistinctNames(lports) && j < |lports| && n <= groups * receivers
    ensures |SwitchStream(lports, groups, receivers)| == groups * receivers
    ensures |Proj(SwitchStream(lports, groups, receivers)[..n], lports[j])| == Share(n, |lports|, j)
    decreases n
  {
    hide Share;
    var stream := SwitchStream(lports, groups, receivers);
    if n == 0 {
      ShareStep(0, |lports|, j);
    } else {
      RoundRobinShare(lports, groups, receivers, n - 1, j);
      ShareStep(n - 1, |lports|, j);
      assert stream[..n] == stream[..n - 1] + [stream[n - 1]];
      ProjSnoc(stream[..n - 1], stream[n - 1], lports[j]);
      if receivers > 0 {
        HitAt(lports, groups, receivers, n - 1);
      }
    }
  }

  /** ... and shares differ by at most one, earlier ports ahead. */
  lemma SharesBalanced(n: nat, ports: nat, i: nat, j: nat)
    requires i <= j < ports
    ensures Share(n, ports, j) <= Share(n, ports, i) <= Share(n, ports, j) + 1
  {
    var a, d := n + ports - 1 - j, j - i;
    QuotientGap(a / ports, a % ports, d, ports, a);
  }

  lemma QuotientGap(q: nat, r: nat, d: nat, p: nat, a: nat)
    requires r < p && d < p && a == p * q + r
    ensures a / p <= (a + d) / p <= a / p + 1
  {
    DivModUnique(a, p, q, r);
    if r + d < p {
      DivModUnique(a + d, p, q, r + d);
    } else {
      MulSucc(p, q);
      DivModUnique(a + d, p, q + 1, r + d - p);
    }
  }

  /** No port is told to join one group twice exactly when the receivers fit on the ports (or there is
      no group). */
  lemma PairsDistinctIff(lports: seq<string>, groups: nat, receivers: nat)
    requires DistinctNames(lports) && lports != []
    ensures var stream := SwitchStream(lports, groups, receivers);
            (forall k, l | 0 <= k < l < |stream| :: stream[k] != stream[l]) <==> receivers <= |lports| || groups == 0
  {
    var stream, n := SwitchStream(lports, groups, receivers), |lports|;
    if receivers <= n {
      forall k, l | 0 <= k < l < |stream|
        ensures stream[k] != stream[l]
      {
        SamePairApart(lports, groups, receivers, k, l);
      }
    } else if groups > 0 {
      GroupIndex(0, 0, groups, receivers);
      GroupIndex(0, n, groups, receivers);
      DivModUnique(n, n, 1, 0);
      DivModUnique(0, n, 0, 0);
      HitAt(lports, groups, receivers, 0);
      HitAt(lports, groups, receivers, n);
      assert stream[0] == stream[n];
    }
  }

  lemma SamePairApart(lports: seq<string>, groups: nat, receivers: nat, k: nat, l: nat)
    requires DistinctNames(lports) && lports != [] && receivers <= |lports| && k < l < groups * receivers
    ensures l < |SwitchStream(lports, groups, receivers)|
    ensures SwitchStream(lports, groups, receivers)[k] != SwitchStream(lports, groups, receivers)[l]
  {
    HitAt(lports, groups, receivers, k);
    HitAt(lports, groups, receivers, l);
    var n := |lports|;
    if k % n == l % n && k / receivers == l / receivers {
      ResidueGap(k, l, n);
      ResidueGroup(k, l, receivers);
    }
  }

  lemma ResidueGap(k: nat, l: nat, n: nat)
    requires n > 0 && k < l && k % n == l % n
    ensures l - k >= n
  {
    assert k == n * (k / n) + k % n && l == n * (l / n) + l % n;
    assert l - k == n * (l / n - k / n);
    FactorGrows(n, l / n - k / n);
  }

  lemma ResidueGroup(k: nat, l: nat, r: nat)
    requires r > 0 && k / r == l / r
    ensures l - k < r
  {
    assert k == r * (k / r) + k % r && l == r * (l / r) + l % r;
  }
}
