/**
 * The remote prime-checking agent's tool: trial division up to the square
 * root, and a report that lists the primes among its inputs.
 */
module CheckPrime {
  import Text

  /** The reference definition: greater than 1 and divisible by no number strictly between 1 and itself. */
  ghost predicate Prime(n: int) {
    n > 1 && forall d :: 1 < d < n ==> n % d != 0
  }

  /** No divisor from 2 up to the square root. */
  ghost predicate NoSmallDivisor(n: int) {
    forall i :: 2 <= i && i * i <= n ==> n % i != 0
  }

  lemma MulLeft(a: int, b: int, c: int)
    requires 0 <= c && a <= b
    ensures c * a <= c * b
  {
  }

  /** A multiple of `e` leaves no remainder on division by `e`. */
  lemma MultipleMod(e: int, d: int)
    requires e > 0
    ensures (e * d) % e == 0
  {
    var q := e * d;
    var k := d - q / e;
    assert q == e * (q / e) + q % e;
    assert e * k == q % e;
    if k >= 1 {
      MulLeft(1, k, e);
    } else if k <= -1 {
      MulLeft(k, -1, e);
    }
  }

  /** A divisor at or above `i`, with i·i > n, pairs with a cofactor below `i`. */
  lemma CofactorBelow(n: int, d: int, i: int)
    requires 1 < d < n && n % d == 0 && 2 <= i <= d && i * i > n
    ensures var e := n / d; 2 <= e < i && n % e == 0
  {
    var e := n / d;
    assert n == d * e by {
      assert n == d * (n / d) + n % d;
    }
    if e <= 1 {
      MulLeft(e, 1, d);
      assert false;
    }
    if e >= i {
      MulLeft(i, e, i);
      MulLeft(i, d, e);
      assert false;
    }
    assert e * d == n;
    MultipleMod(e, d);
  }

  /** With no divisor up to the square root, there is none at all. */
  lemma SmallDivisorsSuffice(n: int)
    requires n > 1 && NoSmallDivisor(n)
    ensures Prime(n)
  {
    forall d | 1 < d < n
      ensures n % d != 0
    {
      if n % d == 0 && d * d > n {
        CofactorBelow(n, d, d);
        var e := n / d;
        MulLeft(e, d, e);
      }
    }
  }

  /** Trial division up to the square root decides primality. */
  lemma SquareRootSuffices(n: int)
    ensures Prime(n) <==> n > 1 && NoSmallDivisor(n)
  {
    if n > 1 && NoSmallDivisor(n) {
      SmallDivisorsSuffice(n);
    }
    if Prime(n) {
      forall i | 2 <= i && i * i <= n
        ensures n % i != 0
      {
        MulLeft(1, i, i);
      }
    }
  }

  /** isPrime */
  method IsPrime(n: int) returns (b: bool)
    ensures b <==> Prime(n)
    ensures b <==> n > 1 && NoSmallDivisor(n)
  {
    SquareRootSuffices(n);
    if n <= 1 {
      return false;
    }
    var i := 2;
    while i * i <= n
      invariant 2 <= i
      invariant forall d :: 2 <= d < i ==> n % d != 0
      decreases n - i
    {
      if n % i == 0 {
        return false;
      }
      MulLeft(1, i, i);
      i := i + 1;
    }
    forall d | 1 < d < n && n % d == 0
      ensures false
    {
      if d >= i {
        CofactorBelow(n, d, i);
      }
    }
    return true;
  }

  /** The primes among the inputs, in input order, duplicates kept. */
  ghost function Primes(nums: seq<int>): seq<int> {
    if nums == [] then []
    else Primes(nums[..|nums| - 1]) + (if Prime(nums[|nums| - 1]) then [nums[|nums| - 1]] else [])
  }

  /** Filtering distributes over concatenation, so the input order is kept. */
  lemma {:induction false} PrimesConcat(a: seq<int>, b: seq<int>)
    ensures Primes(a + b) == Primes(a) + Primes(b)
    decreases |b|
  {
    if b == [] {
      assert a + b == a;
    } else {
      var c := b[..|b| - 1];
      assert (a + b)[..|a + b| - 1] == a + c;
      assert (a + b)[|a + b| - 1] == b[|b| - 1];
      PrimesConcat(a, c);
    }
  }

  /** Each prime input is kept as often as it occurs, and nothing else is kept. */
  lemma {:induction false} PrimesCounted(nums: seq<int>, x: int)
    ensures multiset(Primes(nums))[x] == if Prime(x) then multiset(nums)[x] else 0
  {
    if nums != [] {
      var init := nums[..|nums| - 1];
      PrimesCounted(init, x);
      assert nums == init + [nums[|nums| - 1]];
      assert multiset(nums) == multiset(init) + multiset{nums[|nums| - 1]};
    }
  }

  const NoPrimes := "No prime numbers found."
  const AreSuffix := " are prime numbers."

  /** The decimal forms of some numbers. */
  function Decimals(ps: seq<int>): (r: seq<string>)
    ensures |r| == |ps|
  {
    seq(|ps|, k requires 0 <= k < |ps| => Text.Itoa(ps[k]))
  }

  /** checkPrimeTool's answer. */
  ghost function PrimeReport(nums: seq<int>): string {
    if Primes(nums) == [] then NoPrimes else Text.Join(Decimals(Primes(nums)), ", ") + AreSuffix
  }

  /** The report says there are no primes exactly when no input is prime, and otherwise ends with the fixed suffix. */
  lemma ReportShape(nums: seq<int>)
    ensures PrimeReport(nums) == NoPrimes <==> forall k :: 0 <= k < |nums| ==> !Prime(nums[k])
    ensures PrimeReport(nums) != NoPrimes ==>
              var r := PrimeReport(nums);
              |r| >= |AreSuffix| && r[|r| - |AreSuffix|..] == AreSuffix
  {
    if exists k :: 0 <= k < |nums| && Prime(nums[k]) {
      var k :| 0 <= k < |nums| && Prime(nums[k]);
      PrimesCounted(nums, nums[k]);
      assert nums[k] in multiset(nums);
    } else {
      NoPrimesKept(nums);
    }
    if Primes(nums) != [] {
      var r := PrimeReport(nums);
      assert r[|r| - |AreSuffix|..] == AreSuffix;
    }
  }

  lemma {:induction false} NoPrimesKept(nums: seq<int>)
    requires forall k :: 0 <= k < |nums| ==> !Prime(nums[k])
    ensures Primes(nums) == []
  {
    if nums != [] {
      NoPrimesKept(nums[..|nums| - 1]);
    }
  }

  /** checkPrimeTool: keep the primes, then format them. */
  method CheckPrimeTool(nums: seq<int>) returns (s: string)
    ensures s == PrimeReport(nums)
  {
    var primes: seq<int> := [];
    var i := 0;
    while i < |nums|
      invariant 0 <= i <= |nums|
      invariant primes == Primes(nums[..i])
    {
      assert nums[..i + 1][..i] == nums[..i];
      var p := IsPrime(nums[i]);
      if p {
        primes := primes + [nums[i]];
      }
      i := i + 1;
    }
    assert nums[..i] == nums;
    if |primes| == 0 {
      return NoPrimes;
    }
    var strs: seq<string> := [];
    var j := 0;
    while j < |primes|
      invariant 0 <= j <= |primes|
      invariant strs == Decimals(primes[..j])
    {
      strs := strs + [Text.Itoa(primes[j])];
      j := j + 1;
    }
    assert primes[..j] == primes;
    return Text.Join(strs, ", ") + AreSuffix;
  }
}
