/** Small datatypes and sequence functions shared by every other module. */
module Common {

  datatype Option<+T> = None | Some(value: T)

  /** A Python call: it returns a value or raises. */
  datatype Result<+T> = Success(value: T) | Failure(error: Error) {
    predicate IsFailure() {
      Failure?
    }

    function PropagateFailure<U>(): Result<U>
      requires Failure?
    {
      Failure(error)
    }

    function Extract(): T
      requires Success?
    {
      value
    }
  }

  datatype Error =
    | AddressOverflow   // netaddr: the increment leaves the IPv4 space
    | NetworkTooSmall   // InvalidConfigException
    | DivisionByZero    // ZeroDivisionError
    | MissingKey        // KeyError
    | Exhausted         // StopIteration
    | BadAddress        // AddrFormatError: a negative address
    | Rejected          // ovn-nbctl exits with an error
    | Exited            // SystemExit
    | InvalidConfig     // InvalidConfigException, NoSuchConfigField
    | OutOfRange        // IndexError

  function Min(a: int, b: int): int {
    if a < b then a else b
  }

  /** len(range(n)) */
  function Clamp(n: int): nat {
    if n < 0 then 0 else n
  }

  function Flatten<T>(ss: seq<seq<T>>): seq<T> {
    if ss == [] then [] else ss[0] + Flatten(ss[1..])
  }

  lemma {:induction false} FlattenConcat<T>(a: seq<seq<T>>, b: seq<seq<T>>)
    ensures Flatten(a + b) == Flatten(a) + Flatten(b)
  {
    if a == [] {
      assert a + b == b && Flatten(a) == [];
    } else {
      FlattenConcat(a[1..], b);
      assert (a + b)[0] == a[0] && (a + b)[1..] == a[1..] + b;
      Associates(a[0], Flatten(a[1..]), Flatten(b));
    }
  }

  lemma Associates<T>(a: seq<T>, b: seq<T>, c: seq<T>)
    ensures a + (b + c) == a + b + c
  {
  }

  lemma FlattenSnoc<T>(a: seq<seq<T>>, x: seq<T>)
    ensures Flatten(a + [x]) == Flatten(a) + x
  {
    FlattenConcat(a, [x]);
    assert Flatten([x]) == x + Flatten([]);
  }

  function Sum(xs: seq<int>): int {
    if xs == [] then 0 else xs[0] + Sum(xs[1..])
  }

  lemma {:induction false} SumConcat(a: seq<int>, b: seq<int>)
    ensures Sum(a + b) == Sum(a) + Sum(b)
  {
    if a == [] {
      assert a + b == b;
    } else {
      SumConcat(a[1..], b);
      assert (a + b)[1..] == a[1..] + b;
    }
  }

  lemma SumOne(x: int)
    ensures Sum([x]) == x
  {
    assert Sum([x]) == x + Sum([]);
  }

  lemma {:induction false} SumUpdate(xs: seq<int>, i: nat, x: int)
    requires i < |xs|
    ensures Sum(xs[i := x]) == Sum(xs) - xs[i] + x
  {
    if i > 0 {
      SumUpdate(xs[1..], i - 1, x);
      assert xs[i := x][1..] == xs[1..][i - 1 := x];
    } else {
      assert xs[i := x][1..] == xs[1..];
    }
  }

  /** A non-zero factor does not shrink a product. */
  lemma FactorGrows(n: int, d: int)
    requires 0 <= n
    ensures d >= 1 ==> n * d >= n
    ensures d <= -1 ==> n * d <= -n
  {
  }

  /** Quotient and remainder are determined by the usual two facts. */
  lemma DivModUnique(a: int, n: int, q: int, r: int)
    requires 0 < n && 0 <= r < n && a == q * n + r
    ensures a / n == q && a % n == r
  {
    assert a == n * (a / n) + a % n;
    assert n * (a / n - q) == r - a % n;
    FactorGrows(n, a / n - q);
  }

  /** Products keep the order of their factors. */
  lemma MulOrder(j: nat, k: nat, n: nat)
    ensures j <= k ==> j * n <= k * n
    ensures j < k ==> j * n + n <= k * n
  {
    assert k * n == j * n + n * (k - j);
    FactorGrows(n, k - j);
  }

  lemma MulSplit(j: nat, k: nat, n: nat)
    ensures (j + k) * n == j * n + k * n
  {
  }

  /** Taking one divisor off takes one off the quotient. */
  lemma DivBack(m: nat, n: nat)
    requires 0 < n <= m
    ensures m / n == (m - n) / n + 1
  {
    var q, r := (m - n) / n, (m - n) % n;
    assert m - n == n * q + r;
    DivModUnique(m, n, q + 1, r);
  }

  lemma MulSucc(b: nat, n: nat)
    ensures b * (n + 1) == b * n + b && (n + 1) * b == n * b + b
  {
  }

  lemma NextMultiple(n: nat, b: nat)
    requires b > 0 && n % b == 0
    ensures (n + b) % b == 0
  {
    assert n == b * (n / b);
    DivModUnique(n + b, b, n / b + 1, 0);
  }

  lemma LastMultiple(n: nat, b: nat)
    requires 0 < b <= n && n % b == 0
    ensures (n - b) % b == 0
  {
    assert n == b * (n / b);
    DivModUnique(n - b, b, n / b - 1, 0);
  }

  lemma FirstMultiple(n: nat, b: nat)
    requires 0 < n <= b && n % b == 0
    ensures n == b
  {
    if n < b {
      DivModUnique(n, b, 0, n);
    }
  }
}
