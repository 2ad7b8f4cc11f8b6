/** Chassis addresses over emulation hosts: two passes over the same address range. */
module ChassisPairs {
  import opened Common
  import opened Cidrs

  datatype Pairs = Pairs(index: seq<int>, ips: seq<int>, farmIndex: seq<int>, counts: seq<int>, starts: seq<int>)

  /** Division in Python 2: towards minus infinity. */
  function FloorDiv(a: int, b: int): int
    requires b != 0
  {
    if b > 0 then a / b else (-a) / (-b)
  }

  lemma FloorDivIs(a: int, b: int)
    requires b != 0
    ensures b > 0 ==> FloorDiv(a, b) * b <= a < (FloorDiv(a, b) + 1) * b
    ensures b < 0 ==> FloorDiv(a, b) * b >= a > (FloorDiv(a, b) + 1) * b
  {
    if b > 0 {
      assert a == b * (a / b) + a % b;
    } else {
      assert -a == -b * ((-a) / (-b)) + (-a) % (-b);
    }
  }

  /** The host of address i: the quotient, or the last host once it runs over. */
  function HostOf(i: int, per: int, hosts: int): int
    requires per != 0
  {
    if FloorDiv(i, per) >= hosts then hosts - 1 else FloorDiv(i, per)
  }

  function RunsOver(n: nat, per: int, hosts: int): nat
    requires per != 0
  {
    if n == 0 then 0 else RunsOver(n - 1, per, hosts) + if FloorDiv(n - 1, per) >= hosts then 1 else 0
  }

  function HostCount(h: int, per: int, hosts: int, overflow: nat): int {
    if h == hosts - 1 then per + overflow else per
  }

  /** Every host takes one address from the second iterator, then the rest of its share. */
  function Taken(h: nat, per: int, hosts: int, overflow: nat): nat {
    if h == 0 then 0
    else
      var count := HostCount(h - 1, per, hosts, overflow);
      Taken(h - 1, per, hosts, overflow) + if count > 1 then count else 1
  }

  // what the two passes produce

  function Hosts(n: nat, per: int, hosts: int): seq<int>
    requires n > 0 ==> per != 0
  {
    seq(n, i requires 0 <= i < n => HostOf(i, per, hosts))
  }

  function Addresses(start: nat, n: nat): seq<int> {
    seq(n, i requires 0 <= i < n => start + i)
  }

  function Counts(n: nat, per: int, hosts: int, overflow: nat): seq<int> {
    seq(n, h requires 0 <= h < n => HostCount(h, per, hosts, overflow))
  }

  function Starts(start: nat, n: nat, per: int, hosts: int, overflow: nat): seq<int> {
    seq(n, h requires 0 <= h < n => start + Taken(h, per, hosts, overflow))
  }

  /** The addresses the two iterators have: from the one written to the last of the network. */
  function Available(cidr: Cidr): int {
    cidr.Last() - cidr.ip + 1
  }

  function Overflow(hosts: int, numIp: int): nat
    requires hosts != 0
  {
    if FloorDiv(numIp, hosts) == 0 then 0 else RunsOver(Clamp(numIp), FloorDiv(numIp, hosts), hosts)
  }

  function AllTaken(hosts: int, numIp: int): nat
    requires hosts != 0
  {
    Taken(Clamp(hosts), FloorDiv(numIp, hosts), hosts, Overflow(hosts, numIp))
  }

  /** Which error, if any: a division by zero first, then either iterator running dry. */
  function Outcome(cidr: Cidr, hosts: int, numIp: int): Option<Error> {
    if hosts == 0 then Some(DivisionByZero)
    else if numIp > 0 && FloorDiv(numIp, hosts) == 0 then Some(DivisionByZero)
    else if Clamp(numIp) > Available(cidr) || AllTaken(hosts, numIp) > Available(cidr) then Some(Exhausted)
    else None
  }

  /** The first loop: addresses to hosts. */
  method AssignHosts(cidr: Cidr, per: int, hosts: int, n: nat) returns (r: Result<(seq<int>, seq<int>, nat)>)
    requires cidr.Valid()
    ensures r == if n > 0 && per == 0 then Failure(DivisionByZero)
                 else if n > Available(cidr) then Failure(Exhausted)
                 else Success((Hosts(n, per, hosts), Addresses(cidr.ip, n), if per == 0 then 0 else RunsOver(n, per, hosts)))
  {
    hide FloorDiv, Cidr.Size;
    var overflow: nat, next: int := 0, cidr.ip;
    var index, ips := [], [];
    for i := 0 to n
      invariant i == 0 || per != 0
      invariant i <= Available(cidr) && next == cidr.ip + i
      invariant overflow == if per == 0 then 0 else RunsOver(i, per, hosts)
      invariant index == Hosts(i, per, hosts) && ips == Addresses(cidr.ip, i)
    {
      if per == 0 {
        return Failure(DivisionByZero);
      }
      var host := FloorDiv(i, per);
      if host >= hosts {
        host := hosts - 1;
        overflow := overflow + 1;
      }
      index := index + [host];
      if next > cidr.Last() {
        return Failure(Exhausted);
      }
      ips := ips + [next];
      next := next + 1;
    }
    return Success((index, ips, overflow));
  }

  /** The second loop: a count and a start address for each host. */
  method DescribeHosts(cidr: Cidr, per: int, hosts: int, overflow: nat) returns (r: Result<(seq<int>, seq<int>, seq<int>)>)
    requires cidr.Valid()
    ensures var m := Clamp(hosts);
            r == if Taken(m, per, hosts, overflow) > Available(cidr) then Failure(Exhausted)
                 else Success((Addresses(0, m), Counts(m, per, hosts, overflow), Starts(cidr.ip, m, per, hosts, overflow)))
  {
    hide Cidr.Size, Taken, Addresses, Counts, Starts;
    NoHosts(cidr.ip, per, hosts, overflow);
    var next: int := cidr.ip;
    var farmIndex, counts, starts := [], [], [];
    for h := 0 to Clamp(hosts)
      invariant next == cidr.ip + Taken(h, per, hosts, overflow) && next <= cidr.Last() + 1
      invariant farmIndex == Addresses(0, h) && counts == Counts(h, per, hosts, overflow)
      invariant starts == Starts(cidr.ip, h, per, hosts, overflow)
    {
      TakenGrows(h + 1, Clamp(hosts), per, hosts, overflow);
      OneHost(cidr.ip, h, per, hosts, overflow);
      farmIndex := farmIndex + [h];
      var count := if h == hosts - 1 then per + overflow else per;
      counts := counts + [count];
      if next > cidr.Last() {
        return Failure(Exhausted);
      }
      starts := starts + [next];
      next := next + 1;
      for k := 0 to Clamp(count - 1)
        invariant next == cidr.ip + Taken(h, per, hosts, overflow) + 1 + k && next <= cidr.Last() + 1
      {
        if next > cidr.Last() {
          return Failure(Exhausted);
        }
        next := next + 1;
      }
    }
    return Success((farmIndex, counts, starts));
  }

  lemma NoHosts(start: nat, per: int, hosts: int, overflow: nat)
    ensures Taken(0, per, hosts, overflow) == 0
    ensures Addresses(0, 0) == [] && Counts(0, per, hosts, overflow) == [] && Starts(start, 0, per, hosts, overflow) == []
  {
  }

  lemma OneHost(start: nat, h: nat, per: int, hosts: int, overflow: nat)
    ensures var count := HostCount(h, per, hosts, overflow);
            Taken(h + 1, per, hosts, overflow) == Taken(h, per, hosts, overflow) + if count > 1 then count else 1
    ensures Addresses(0, h + 1) == Addresses(0, h) + [h]
    ensures Counts(h + 1, per, hosts, overflow) == Counts(h, per, hosts, overflow) + [HostCount(h, per, hosts, overflow)]
    ensures Starts(start, h + 1, per, hosts, overflow)
            == Starts(start, h, per, hosts, overflow) + [start + Taken(h, per, hosts, overflow)]
  {
  }

  /** main of generate_chassis_ip_pairs.py */
  method Generate(cidr: Cidr, hosts: int, numIp: int) returns (r: Result<Pairs>)
    requires cidr.Valid()
    ensures r.Success? <==> Outcome(cidr, hosts, numIp) == None
    ensures r.Failure? ==> Outcome(cidr, hosts, numIp) == Some(r.error)
    ensures r.Success? ==>
              var per, n, m := FloorDiv(numIp, hosts), Clamp(numIp), Clamp(hosts);
              && r.value.index == Hosts(n, per, hosts) && r.value.ips == Addresses(cidr.ip, n)
              && r.value.farmIndex == Addresses(0, m)
              && r.value.counts == Counts(m, per, hosts, Overflow(hosts, numIp))
              && r.value.starts == Starts(cidr.ip, m, per, hosts, Overflow(hosts, numIp))
  {
    hide FloorDiv, RunsOver, Taken, Hosts, Addresses, Counts, Starts, Available;
    if hosts == 0 {
      return Failure(DivisionByZero);
    }
    var per := FloorDiv(numIp, hosts);
    var first :- AssignHosts(cidr, per, hosts, Clamp(numIp));
    var second :- DescribeHosts(cidr, per, hosts, first.2);
    return Success(Pairs(first.0, first.1, second.0, second.1, second.2));
  }

  lemma {:induction false} TakenGrows(h: nat, n: nat, per: int, hosts: int, overflow: nat)
    requires h <= n
    ensures Taken(h, per, hosts, overflow) <= Taken(n, per, hosts, overflow)
    decreases n
  {
    if h < n {
      TakenGrows(h, n - 1, per, hosts, overflow);
    }
  }

  // ---- the two passes agree

  lemma HostOfIff(i: nat, per: nat, hosts: nat, h: nat)
    requires per > 0 && h < hosts
    ensures HostOf(i, per, hosts) == h <==> h * per <= i && (h + 1 < hosts ==> i < (h + 1) * per)
    ensures FloorDiv(i, per) >= hosts <==> i >= hosts * per
  {
    var q, r := i / per, i % per;
    assert i == q * per + r;
    MulOrder(q, h, per);
    MulOrder(h, q, per);
    MulOrder(q, hosts, per);
    MulOrder(hosts, q, per);
    MulOrder(q, h + 1, per);
    MulOrder(h + 1, q, per);
    MulOrder(q, hosts - 1, per);
    MulOrder(hosts - 1, q, per);
  }

  lemma {:induction false} OverflowIs(n: nat, per: nat, hosts: nat)
    requires per > 0 && hosts > 0
    ensures RunsOver(n, per, hosts) == Clamp(n - hosts * per)
  {
    hide FloorDiv;
    if n == 0 {
    } else {
      OverflowIs(n - 1, per, hosts);
      HostOfIff(n - 1, per, hosts, 0);
    }
  }

  lemma {:induction false} TakenIs(h: nat, per: nat, hosts: nat, overflow: nat)
    requires per > 0 && h <= hosts
    ensures Taken(h, per, hosts, overflow) == h * per + if h == hosts && h > 0 then overflow else 0
  {
    if h == 0 {
    } else {
      TakenIs(h - 1, per, hosts, overflow);
      assert h * per == (h - 1) * per + per;
    }
  }

  lemma Quotients(hosts: nat, numIp: nat)
    requires 1 <= hosts <= numIp
    ensures var per := FloorDiv(numIp, hosts);
            per > 0 && numIp == hosts * per + numIp % hosts && Overflow(hosts, numIp) == numIp % hosts
  {
    var per := numIp / hosts;
    assert numIp == hosts * per + numIp % hosts;
    if per > 0 {
      OverflowIs(numIp, per, hosts);
    }
  }

  /** With at least one address per host: the addresses the first pass gives host h are exactly the
      count[h] consecutive ones from starts[h] on, every host has floor(numIp/hosts) of them but the last,
      which also has the remainder, and the call succeeds exactly when there are enough addresses. */
  lemma PassesAgree(cidr: Cidr, hosts: nat, numIp: nat, h: nat)
    requires cidr.Valid() && 1 <= hosts <= numIp && h < hosts
    ensures Outcome(cidr, hosts, numIp) == if numIp <= Available(cidr) then None else Some(Exhausted)
    ensures FloorDiv(numIp, hosts) > 0
    ensures var per := FloorDiv(numIp, hosts);
            var count := Counts(hosts, per, hosts, Overflow(hosts, numIp))[h];
            var start := Starts(cidr.ip, hosts, per, hosts, Overflow(hosts, numIp))[h];
            && count == per + (if h == hosts - 1 then numIp % hosts else 0)
            && start == cidr.ip + h * per && h * per + count <= numIp
            && (forall i: nat | i < numIp ::
                  Hosts(numIp, per, hosts)[i] == h <==> start <= Addresses(cidr.ip, numIp)[i] < start + count)
  {
    var per, rest := FloorDiv(numIp, hosts), numIp % hosts;
    Quotients(hosts, numIp);
    hide FloorDiv, RunsOver, Cidr.Size, Overflow;
    TakenIs(h, per, hosts, rest);
    TakenIs(hosts, per, hosts, rest);
    MulOrder(h, hosts, per);
    assert (h + 1) * per == h * per + per;
    if h + 1 < hosts {
      MulOrder(h + 1, hosts, per);
    }
    forall i: nat | i < numIp
      ensures HostOf(i, per, hosts) == h
              <==> h * per <= i < h * per + HostCount(h, per, hosts, rest)
    {
      HostOfIff(i, per, hosts, h);
    }
  }

  /** The shares of all hosts add up to the addresses asked for. */
  lemma CountsAddUp(hosts: nat, numIp: nat)
    requires 1 <= hosts <= numIp
    ensures Sum(Counts(hosts, FloorDiv(numIp, hosts), hosts, Overflow(hosts, numIp))) == numIp
  {
    Quotients(hosts, numIp);
    var per, rest := FloorDiv(numIp, hosts), numIp % hosts;
    hide FloorDiv, Overflow, Sum, Counts;
    LastCount(hosts, per, rest);
    SumConcat(seq(hosts - 1, i => per), [per + rest]);
    SumSame(hosts - 1, per);
    SumOne(per + rest);
    MulSucc(per, hosts - 1);
  }

  lemma LastCount(hosts: nat, per: nat, rest: nat)
    requires hosts > 0
    ensures Counts(hosts, per, hosts, rest) == seq(hosts - 1, i => per) + [per + rest]
  {
  }

  lemma {:induction false} SumSame(n: nat, x: int)
    ensures Sum(seq(n, i => x)) == n * x
  {
    if n == 0 {
    } else {
      SumSame(n - 1, x);
      assert seq(n, i => x)[1..] == seq(n - 1, i => x);
      assert n * x == (n - 1) * x + x;
    }
  }

  /** Fewer addresses than hosts is an error, but none at all is not: every host is then told a start
      address of its own although its count is zero. */
  lemma FewAddresses(cidr: Cidr, hosts: nat, numIp: nat)
    requires cidr.Valid() && numIp < hosts
    ensures numIp > 0 ==> Outcome(cidr, hosts, numIp) == Some(DivisionByZero)
    ensures numIp == 0 ==> (Outcome(cidr, hosts, numIp) == None <==> hosts <= Available(cidr))
    ensures numIp == 0 ==> Counts(hosts, 0, hosts, Overflow(hosts, 0)) == seq(hosts, i => 0)
    ensures numIp == 0 ==> Starts(cidr.ip, hosts, 0, hosts, Overflow(hosts, 0)) == seq(hosts, i => cidr.ip + i)
  {
    DivModUnique(numIp, hosts, 0, numIp);
    forall h: nat | h <= hosts
      ensures Taken(h, 0, hosts, 0) == h
    {
      OneEach(h, hosts);
    }
  }

  lemma {:induction false} OneEach(h: nat, hosts: nat)
    ensures Taken(h, 0, hosts, 0) == h
  {
    if h == 0 {
    } else {
      OneEach(h - 1, hosts);
    }
  }
}
