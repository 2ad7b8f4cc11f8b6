/** IPv4 networks as netaddr.IPNetwork treats them, on numbers (RFC 4632, section 3.1). */
module Cidrs {
  import opened Common

  const IPV4_END: nat := 0x1_0000_0000

  function Pow2(n: nat): (r: nat)
    ensures 1 <= r
  {
    if n == 0 then 1 else 2 * Pow2(n - 1)
  }

  /** `ip` is the address that was written, `base` the first address of the network. */
  datatype Cidr = Cidr(ip: nat, base: nat, len: nat) {
    function Size(): (r: nat)
      ensures 1 <= r
    {
      Pow2(if len <= 32 then 32 - len else 0)
    }

    ghost predicate Valid() {
      len <= 32 && base <= ip < base + Size() && base + Size() <= IPV4_END && base % Size() == 0
    }

    /** The network with no address of its own, as ovn-nbctl stores a prefix. */
    function Network(): Cidr {
      Cidr(base, base, len)
    }

    function Last(): int {
      base + Size() - 1
    }

    predicate Contains(a: int) {
      base <= a <= Last()
    }

    /** IPNetwork.next(k): the k-th network after this one, its address reset to its base. */
    function Next(k: nat): Option<Cidr> {
      if base + k * Size() + Size() <= IPV4_END then Some(At(k)) else None
    }

    function At(k: nat): Cidr {
      Cidr(base + k * Size(), base + k * Size(), len)
    }

    /** _get_gw_ip: the last address minus an offset. */
    function Gateway(offset: int): int {
      Last() - offset
    }

    /** A gateway address written with this network's mask. */
    function Iface(offset: int): Cidr {
      Cidr(Clamp(Gateway(offset)), base, len)
    }
  }

  ghost predicate Disjoint(c: Cidr, d: Cidr) {
    forall a: int :: !(c.Contains(a) && d.Contains(a))
  }

  lemma PowMonotone(m: nat, n: nat)
    requires m <= n
    ensures Pow2(m) <= Pow2(n)
  {
  }

  lemma AlignedAt(size: nat, base: nat, k: nat)
    requires 0 < size && base % size == 0
    ensures (base + k * size) % size == 0
  {
    assert base == size * (base / size);
    assert base + k * size == (base / size + k) * size by {
      assert (base / size + k) * size == (base / size) * size + k * size;
    }
    DivModUnique(base + k * size, size, base / size + k, 0);
  }

  lemma SizeAt(c: Cidr, k: nat)
    ensures c.At(k).Size() == c.Size()
  {
  }

  lemma AtComposes(c: Cidr, j: nat, k: nat)
    ensures c.At(j).At(k) == c.At(j + k)
    ensures c.At(j).Next(k).Some? <==> c.Next(j + k).Some?
  {
    SizeAt(c, j);
    SizeAt(c, j + k);
    hide Cidr.Size;
    MulSplit(j, k, c.Size());
  }

  /** Later networks have later gateways. */
  lemma GatewayGrows(c: Cidr, k: nat, offset: int)
    ensures c.At(k).Gateway(offset) >= c.Gateway(offset)
  {
  }

  /** Stepping k networks on stays a network, and steps add up, overflow included. */
  lemma NextComposes(c: Cidr, j: nat, k: nat)
    requires c.Valid()
    ensures c.Next(j).Some? ==> c.Next(j).value.Valid() && c.Next(j).value.Next(k) == c.Next(j + k)
    ensures c.Next(j).None? ==> c.Next(j + k).None?
  {
    SizeAt(c, j);
    SizeAt(c, j + k);
    hide Cidr.Size;
    AlignedAt(c.Size(), c.base, j);
    AtComposes(c, j, k);
    MulOrder(j, j + k, c.Size());
  }

  /** Any two networks of one chain have no address in common. */
  lemma NextDisjoint(c: Cidr, j: nat, k: nat)
    requires j != k
    ensures Disjoint(c.At(j), c.At(k))
    ensures c.At(j) != c.At(k)
  {
    SizeAt(c, j);
    SizeAt(c, k);
    hide Cidr.Size;
    var lo, hi := if j < k then j else k, if j < k then k else j;
    MulOrder(lo, hi, c.Size());
    assert c.At(lo).Last() < c.At(hi).base;
  }

  /** Every earlier network of a chain exists when a later one does. */
  lemma NextPrefix(c: Cidr, j: nat, k: nat)
    requires j <= k && c.Next(k).Some?
    ensures c.Next(j).Some?
  {
    hide Cidr.Size;
    MulOrder(j, k, c.Size());
  }

  /** The k networks after c exist up to the i-th. */
  predicate Runs(c: Cidr, i: nat) {
    i == 0 || c.Next(i - 1).Some?
  }

  lemma RunsPrefix(c: Cidr, i: nat, k: nat)
    requires i <= k && Runs(c, k)
    ensures Runs(c, i)
  {
    if i > 0 {
      NextPrefix(c, i - 1, k - 1);
    }
  }

  lemma RunsStep(c: Cidr, i: nat)
    ensures Runs(c, i + 1) <==> c.Next(i).Some?
    ensures c.Next(i).Some? ==> c.Next(i).value == c.At(i)
  {
  }

  /** The two topmost usable addresses of a network serve as two different gateways inside it
      exactly when its prefix is at most /30. */
  lemma GatewaysInsideIff(c: Cidr)
    requires c.Valid()
    ensures (c.Contains(c.Gateway(1)) && c.Contains(c.Gateway(2))) <==> c.len <= 30
  {
    if c.len <= 30 {
      PowMonotone(2, 32 - c.len);
      assert Pow2(2) == 4;
    } else {
      assert Pow2(1) == 2 && Pow2(0) == 1;
    }
  }
}
