/** Which sandbox each logical port is bound on. */
module PortBindings {
  import opened Common
  import opened McastPlans

  datatype Box = Box(name: string, farm: string)

  /** lport_sbs: by sandbox name, the sandbox and its ports. */
  type Bindings = map<string, (Box, seq<string>)>

  function BoundOn(m: Bindings, name: string): seq<string> {
    if name in m then m[name].1 else []
  }

  function Bind(m: Bindings, box: Box, port: string): Bindings {
    m[box.name := (box, BoundOn(m, box.name) + [port])]
  }

  ghost predicate Chooses(choice: seq<nat>, ports: seq<string>, boxes: seq<Box>) {
    |choice| == |ports| && forall k | 0 <= k < |choice| :: choice[k] < |boxes|
  }

  /** Port k goes to sandbox choice[k], in the order of the ports. */
  function BindAll(boxes: seq<Box>, choice: seq<nat>, ports: seq<string>): Bindings
    requires Chooses(choice, ports, boxes)
  {
    if ports == [] then map[]
    else
      var n := |ports| - 1;
      Bind(BindAll(boxes, choice[..n], ports[..n]), boxes[choice[n]], ports[n])
  }

  /** lport_per_sandbox: the ceiling of the quotient. */
  function PerBox(ports: nat, boxes: nat): (r: nat)
    requires boxes > 0
    ensures ports > 0 ==> r > 0
  {
    DivModUnique(boxes, boxes, 1, 0);
    (ports + boxes - 1) / boxes
  }

  function BlockChoice(ports: nat, per: nat): seq<nat>
    requires ports > 0 ==> per > 0
  {
    seq(ports, k requires 0 <= k < ports => k / per)
  }

  /** The smallest number of ports per sandbox that has room for all of them. */
  lemma PerBoxBounds(ports: nat, boxes: nat)
    requires boxes > 0
    ensures ports > 0 ==> (PerBox(ports, boxes) - 1) * boxes < ports
    ensures ports <= PerBox(ports, boxes) * boxes
  {
    var n := ports + boxes - 1;
    assert n == n / boxes * boxes + n % boxes;
    assert (n / boxes - 1) * boxes == n / boxes * boxes - boxes;
  }

  /** The index j stays below the number of sandboxes. */
  lemma BlockInRange(k: nat, ports: nat, boxes: nat)
    requires k < ports && boxes > 0
    ensures PerBox(ports, boxes) > 0 && k / PerBox(ports, boxes) < boxes
  {
    PerBoxBounds(ports, boxes);
    hide PerBox;
    QuotientBelow(k, PerBox(ports, boxes), boxes);
  }

  lemma QuotientBelow(k: nat, per: nat, boxes: nat)
    requires per > 0 && k < per * boxes
    ensures k / per < boxes
  {
    MulOrder(boxes, k / per, per);
    assert k == k / per * per + k % per;
  }

  /** What the code chooses: consecutive blocks, or at random when there are fewer ports than sandboxes. */
  function Choice(ports: nat, boxes: nat, picks: seq<nat>): seq<nat>
    requires boxes > 0 && (ports < boxes ==> |picks| == ports)
  {
    if ports < boxes then picks
    else BlockChoice(ports, PerBox(ports, boxes))
  }

  lemma ChoiceIsOne(ports: seq<string>, boxes: seq<Box>, picks: seq<nat>)
    requires boxes != [] && |picks| == |ports| && forall k | 0 <= k < |picks| :: picks[k] < |boxes|
    ensures Chooses(Choice(|ports|, |boxes|, picks), ports, boxes)
    ensures |Choice(|ports|, |boxes|, picks)| == |ports|
    ensures |ports| >= |boxes| ==>
              Choice(|ports|, |boxes|, picks) == BlockChoice(|ports|, PerBox(|ports|, |boxes|))
  {
    PerBoxBounds(|ports|, |boxes|);
    forall k: nat | k < |ports|
      ensures k / PerBox(|ports|, |boxes|) < |boxes|
    {
      BlockInRange(k, |ports|, |boxes|);
    }
  }

  lemma BindOne(boxes: seq<Box>, choice: seq<nat>, ports: seq<string>, k: nat)
    requires Chooses(choice, ports, boxes) && k < |ports|
    ensures Chooses(choice[..k], ports[..k], boxes) && Chooses(choice[..k + 1], ports[..k + 1], boxes)
    ensures BindAll(boxes, choice[..k + 1], ports[..k + 1])
            == Bind(BindAll(boxes, choice[..k], ports[..k]), boxes[choice[k]], ports[k])
  {
    assert choice[..k + 1][..k] == choice[..k] && ports[..k + 1][..k] == ports[..k];
  }

  /** _bind_ports up to the calls of _bind_ovs_port; `picks` are the answers of random.choice. */
  method BindPorts(ports: seq<string>, boxes: seq<Box>, picks: seq<nat>) returns (r: Result<Bindings>)
    requires |picks| == |ports| && (boxes != [] ==> forall k | 0 <= k < |picks| :: picks[k] < |boxes|)
    ensures r.Success? <==> boxes != []
    ensures r.Success? ==> Chooses(Choice(|ports|, |boxes|, picks), ports, boxes)
    ensures r.Success? ==> r.value == BindAll(boxes, Choice(|ports|, |boxes|, picks), ports)
  {
    hide BindAll, PerBox, BlockChoice, Chooses;
    if |boxes| == 0 {
      return Failure(DivisionByZero);
    }
    var per := PerBox(|ports|, |boxes|);
    ghost var choice := Choice(|ports|, |boxes|, picks);
    ChoiceIsOne(ports, boxes, picks);
    BindNone(boxes, choice, ports);
    var bound: Bindings := map[];
    if |ports| < |boxes| {
      for k := 0 to |ports|
        invariant Chooses(choice[..k], ports[..k], boxes) && bound == BindAll(boxes, choice[..k], ports[..k])
      {
        BindOne(boxes, choice, ports, k);
        bound := Bind(bound, boxes[picks[k]], ports[k]);
      }
    } else {
      var i, j := 0, 0;
      while i < |ports|
        invariant i == j * per
        invariant Chooses(choice[..Min(i, |ports|)], ports[..Min(i, |ports|)], boxes)
        invariant bound == BindAll(boxes, choice[..Min(i, |ports|)], ports[..Min(i, |ports|)])
        decreases |ports| - i
      {
        var slice := ports[i..Min(i + per, |ports|)];
        for index := 0 to |slice|
          invariant Chooses(choice[..i + index], ports[..i + index], boxes)
          invariant bound == BindAll(boxes, choice[..i + index], ports[..i + index])
        {
          BlockInRange(i + index, |ports|, |boxes|);
          DivModUnique(i + index, per, j, index);
          BlockAt(|ports|, per, i + index);
          BindOne(boxes, choice, ports, i + index);
          bound := Bind(bound, boxes[j], slice[index]);
        }
        MulSucc(per, j);
        i := i + per;
        j := j + 1;
      }
    }
    assert ports[..|ports|] == ports && choice[..|ports|] == choice;
    return Success(bound);
  }

  lemma BlockAt(ports: nat, per: nat, k: nat)
    requires per > 0 && k < ports
    ensures |BlockChoice(ports, per)| == ports && BlockChoice(ports, per)[k] == k / per
  {
  }

  lemma BindNone(boxes: seq<Box>, choice: seq<nat>, ports: seq<string>)
    ensures Chooses(choice[..0], ports[..0], boxes) && BindAll(boxes, choice[..0], ports[..0]) == map[]
  {
  }

  // ---- a partition

  predicate DistinctBoxes(boxes: seq<Box>) {
    forall i, j | 0 <= i < j < |boxes| :: boxes[i].name != boxes[j].name
  }

  /** The ports chosen for sandbox j, in order. */
  function Chosen(choice: seq<nat>, ports: seq<string>, j: nat): seq<string>
    requires |choice| == |ports|
  {
    if ports == [] then []
    else
      var n := |ports| - 1;
      Chosen(choice[..n], ports[..n], j) + if choice[n] == j then [ports[n]] else []
  }

  function ChosenSizes(choice: seq<nat>, ports: seq<string>, n: nat): seq<int>
    requires |choice| == |ports|
  {
    seq(n, j requires 0 <= j < n => |Chosen(choice, ports, j)|)
  }

  /** Each sandbox gets exactly the ports chosen for it, and the rest has no entry. */
  lemma {:induction false} BoundExactly(boxes: seq<Box>, choice: seq<nat>, ports: seq<string>, j: nat)
    requires Chooses(choice, ports, boxes) && DistinctBoxes(boxes) && j < |boxes|
    ensures BoundOn(BindAll(boxes, choice, ports), boxes[j].name) == Chosen(choice, ports, j)
    ensures boxes[j].name in BindAll(boxes, choice, ports) <==> Chosen(choice, ports, j) != []
    ensures boxes[j].name in BindAll(boxes, choice, ports) ==> BindAll(boxes, choice, ports)[boxes[j].name].0 == boxes[j]
    ensures forall name | name in BindAll(boxes, choice, ports) :: exists i :: 0 <= i < |boxes| && boxes[i].name == name
  {
    if ports == [] {
    } else {
      var n := |ports| - 1;
      BoundExactly(boxes, choice[..n], ports[..n], j);
    }
  }

  /** The sizes add up. */
  lemma {:induction false} EveryPortBound(choice: seq<nat>, ports: seq<string>, boxes: seq<Box>)
    requires Chooses(choice, ports, boxes)
    ensures Sum(ChosenSizes(choice, ports, |boxes|)) == |ports|
  {
    if ports == [] {
      assert ChosenSizes(choice, ports, |boxes|) == seq(|boxes|, i => 0);
      ZeroSum(|boxes|);
    } else {
      var n := |ports| - 1;
      EveryPortBound(choice[..n], ports[..n], boxes);
      var before, j := ChosenSizes(choice[..n], ports[..n], |boxes|), choice[n];
      assert ChosenSizes(choice, ports, |boxes|) == before[j := before[j] + 1];
      SumUpdate(before, j, before[j] + 1);
    }
  }

  /** The indexes of the ports chosen for sandbox j. */
  function ChosenIndexes(choice: seq<nat>, j: nat): seq<nat> {
    if choice == [] then []
    else
      var n := |choice| - 1;
      ChosenIndexes(choice[..n], j) + if choice[n] == j then [n] else []
  }

  function PortsAt(ports: seq<string>, indexes: seq<nat>): seq<string>
    requires forall i | 0 <= i < |indexes| :: indexes[i] < |ports|
  {
    seq(|indexes|, i requires 0 <= i < |indexes| => ports[indexes[i]])
  }

  /** What a sandbox gets are the ports of its indexes, each index once and in order ... */
  lemma {:induction false} ChosenByIndex(choice: seq<nat>, ports: seq<string>, j: nat)
    requires |choice| == |ports|
    ensures forall i | 0 <= i < |ChosenIndexes(choice, j)| :: ChosenIndexes(choice, j)[i] < |ports|
    ensures forall i, k | 0 <= i < k < |ChosenIndexes(choice, j)| :: ChosenIndexes(choice, j)[i] < ChosenIndexes(choice, j)[k]
    ensures Chosen(choice, ports, j) == PortsAt(ports, ChosenIndexes(choice, j))
  {
    if ports == [] {
    } else {
      hide PortsAt;
      var n := |ports| - 1;
      ChosenByIndex(choice[..n], ports[..n], j);
      PortsAtSnoc(ports, ChosenIndexes(choice[..n], j));
    }
  }

  lemma PortsAtSnoc(ports: seq<string>, indexes: seq<nat>)
    requires ports != [] && forall i | 0 <= i < |indexes| :: indexes[i] < |ports| - 1
    ensures PortsAt(ports, indexes) == PortsAt(ports[..|ports| - 1], indexes)
    ensures PortsAt(ports, indexes + [|ports| - 1]) == PortsAt(ports, indexes) + [ports[|ports| - 1]]
  {
  }

  /** ... and every index belongs to exactly one sandbox. */
  lemma {:induction false} IndexOnce(choice: seq<nat>, ports: seq<string>, boxes: seq<Box>, k: nat, j: nat)
    requires Chooses(choice, ports, boxes) && k < |ports|
    ensures k in ChosenIndexes(choice, j) <==> choice[k] == j
    ensures choice[k] < |boxes|
    decreases |choice|
  {
    var n := |choice| - 1;
    if k == n {
      IndexesBelow(choice[..n], j);
    } else {
      IndexOnce(choice[..n], ports[..n], boxes, k, j);
    }
  }

  lemma {:induction false} IndexesBelow(choice: seq<nat>, j: nat)
    ensures forall i | 0 <= i < |ChosenIndexes(choice, j)| :: ChosenIndexes(choice, j)[i] < |choice|
  {
    if choice == [] {
    } else {
      IndexesBelow(choice[..|choice| - 1], j);
    }
  }

  /** Every port is bound exactly once: there is one sandbox, and no other, among whose indexes it is. */
  lemma EachPortOnce(choice: seq<nat>, ports: seq<string>, boxes: seq<Box>, k: nat)
    requires Chooses(choice, ports, boxes) && k < |ports|
    ensures exists j :: 0 <= j < |boxes| && k in ChosenIndexes(choice, j)
    ensures forall i: nat, j: nat | k in ChosenIndexes(choice, i) && k in ChosenIndexes(choice, j) :: i == j
  {
    forall j: nat
      ensures k in ChosenIndexes(choice, j) <==> choice[k] == j
    {
      IndexOnce(choice, ports, boxes, k, j);
    }
    IndexOnce(choice, ports, boxes, k, choice[k]);
  }

  /** With fewer ports than sandboxes, a port is on the sandbox that was picked for it and on no other. */
  lemma RandomBinding(ports: seq<string>, boxes: seq<Box>, picks: seq<nat>, k: nat, j: nat)
    requires |ports| < |boxes| && DistinctBoxes(boxes) && DistinctNames(ports) && k < |ports| && j < |boxes|
    requires |picks| == |ports| && forall i | 0 <= i < |picks| :: picks[i] < |boxes|
    ensures Chooses(Choice(|ports|, |boxes|, picks), ports, boxes)
    ensures ports[k] in BoundOn(BindAll(boxes, Choice(|ports|, |boxes|, picks), ports), boxes[j].name) <==> picks[k] == j
  {
    BoundExactly(boxes, picks, ports, j);
    ChosenByIndex(picks, ports, j);
    IndexOnce(picks, ports, boxes, k, j);
    var indexes := ChosenIndexes(picks, j);
    if ports[k] in Chosen(picks, ports, j) {
      var i :| 0 <= i < |indexes| && PortsAt(ports, indexes)[i] == ports[k];
      assert indexes[i] == k;
    }
    if picks[k] == j {
      var i :| 0 <= i < |indexes| && indexes[i] == k;
      assert PortsAt(ports, indexes)[i] == ports[k];
    }
  }

  /** Where block j starts, or the end of the ports. */
  function BlockStart(j: nat, per: nat, ports: nat): (r: nat)
    ensures r <= ports
  {
    Min(j * per, ports)
  }

  lemma BlockStartStep(j: nat, per: nat, n: nat)
    requires per > 0
    ensures BlockStart(j, per, n) <= BlockStart(j + 1, per, n) <= BlockStart(j, per, n) + per
    ensures BlockStart(j, per, n + 1) == BlockStart(j, per, n) + if n < j * per then 1 else 0
    ensures n / per == j <==> j * per <= n < (j + 1) * per
  {
    MulSucc(per, j);
    assert n == per * (n / per) + n % per;
    if j * per <= n < (j + 1) * per {
      DivModUnique(n, per, j, n - j * per);
    }
  }

  /** Sandbox j gets the j-th block of consecutive ports. */
  lemma {:induction false} BlocksChosen(ports: seq<string>, per: nat, j: nat)
    requires per > 0
    ensures |BlockChoice(|ports|, per)| == |ports| && BlockStart(j, per, |ports|) <= BlockStart(j + 1, per, |ports|)
    ensures Chosen(BlockChoice(|ports|, per), ports, j) == ports[BlockStart(j, per, |ports|)..BlockStart(j + 1, per, |ports|)]
  {
    var choice := BlockChoice(|ports|, per);
    BlockStartStep(j, per, |ports|);
    if ports != [] {
      var n := |ports| - 1;
      BlocksChosen(ports[..n], per, j);
      BlockStartStep(j, per, n);
      BlockStartStep(j + 1, per, n);
      MulSucc(per, j);
      assert choice[..n] == BlockChoice(n, per);
      assert choice[n] == n / per;
      hide BlockStart, BlockChoice;
      assert ports == ports[..n] + [ports[n]];
    } else {
      assert Chosen(choice, ports, j) == [];
    }
  }

  /** With at least as many ports as sandboxes: consecutive blocks of at most the ceiling, order kept,
      and sandbox j is left empty exactly when the blocks before it have used up the ports. */
  lemma BlockBinding(ports: seq<string>, boxes: seq<Box>, picks: seq<nat>, j: nat)
    requires |ports| >= |boxes| && DistinctBoxes(boxes) && j < |boxes|
    ensures var n, per := |ports|, PerBox(|ports|, |boxes|);
            var choice := Choice(n, |boxes|, picks);
            && Chooses(choice, ports, boxes)
            && BoundOn(BindAll(boxes, choice, ports), boxes[j].name)
               == ports[BlockStart(j, per, n)..Clamp(Min((j + 1) * per, n))]
            && |BoundOn(BindAll(boxes, choice, ports), boxes[j].name)| <= per
            && (boxes[j].name in BindAll(boxes, choice, ports) <==> j * per < n)
  {
    var n, per := |ports|, PerBox(|ports|, |boxes|);
    PerBoxBounds(n, |boxes|);
    var zeros := seq(n, i => 0);
    ChoiceIsOne(ports, boxes, zeros);
    assert Choice(n, |boxes|, picks) == BlockChoice(n, per);
    BoundExactly(boxes, BlockChoice(n, per), ports, j);
    BlocksChosen(ports, per, j);
    BlockStartStep(j, per, n);
    MulSucc(per, j);
  }
}
