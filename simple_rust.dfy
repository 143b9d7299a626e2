/** The exports of `examples/simple-rust/src/lib.rs` on `i32`. The crate is
    built for the release profile, where `+` and `*` wrap around in two's
    complement; the wrap is written out with `Wrap`. */
module SimpleRust {

  const Modulus: int := 0x1_0000_0000
  const MinI32: int := -0x8000_0000
  const MaxI32: int := 0x7FFF_FFFF

  type I32 = x: int | MinI32 <= x <= MaxI32

  /** Two's-complement truncation of a mathematical integer to 32 bits. */
  function Wrap(x: int): (r: I32)
    ensures (r - x) % Modulus == 0
    ensures MinI32 <= x <= MaxI32 ==> r == x
  {
    (x - MinI32) % Modulus + MinI32
  }

  /** `add`: the sum, wrapped. The sum of two `i32` values is off the
      range by less than one modulus, so one correction step suffices. */
  function Add(a: I32, b: I32): (r: I32)
    ensures MinI32 <= a + b <= MaxI32 ==> r == a + b
    ensures r == Wrap(a + b)
  {
    if a + b > MaxI32 then a + b - Modulus
    else if a + b < MinI32 then a + b + Modulus
    else a + b
  }

  /** `multiply`: the product, wrapped. */
  function Multiply(a: I32, b: I32): (r: I32)
    ensures MinI32 <= a * b <= MaxI32 ==> r == a * b
    ensures (r - a * b) % Modulus == 0
  {
    Wrap(a * b)
  }

  /** The Fibonacci numbers over the naturals. */
  function Fib(n: nat): nat {
    if n < 2 then n else Fib(n - 1) + Fib(n - 2)
  }

  /** `fibonacci`: every `n <= 1` is its own result, larger `n` add the two
      previous values with `i32` addition. For every `n >= 0` the result is
      the true Fibonacci number modulo 2^32: wrapping loses only multiples of
      the modulus. */
  function Fibonacci(n: I32): (r: I32)
    ensures 0 <= n ==> (r - Fib(n)) % Modulus == 0
    decreases n - MinI32
  {
    if n <= 1 then n
    else
      var a, b := Fibonacci(n - 1), Fibonacci(n - 2);
      CongruentSum(a, Fib(n - 1), b, Fib(n - 2), Add(a, b));
      Add(a, b)
  }

  /** Congruence modulo 2^32 is preserved by addition. */
  lemma CongruentSum(a: int, x: int, b: int, y: int, r: int)
    requires (a - x) % Modulus == 0 && (b - y) % Modulus == 0
    requires (r - (a + b)) % Modulus == 0
    ensures (r - (x + y)) % Modulus == 0
  {
    var i, j, k := (a - x) / Modulus, (b - y) / Modulus, (r - (a + b)) / Modulus;
    assert r - (x + y) == Modulus * (i + j + k);
  }

  lemma {:induction false} FibMonotone(m: nat, n: nat)
    requires m <= n
    ensures Fib(m) <= Fib(n)
    decreases n - m
  {
    if m < n {
      FibMonotone(m, n - 1);
      if n >= 2 {
        assert Fib(n) == Fib(n - 1) + Fib(n - 2);
      } else {
        assert m == 0;
      }
    }
  }

  /** The largest Fibonacci number below 2^31, and the first above it. */
  lemma FibAroundI32Limit()
    ensures Fib(46) == 1836311903 <= MaxI32
    ensures Fib(47) == 2971215073 > MaxI32
  {
    // Each value follows from the two before it.
    assert Fib(2) == 1;
    assert Fib(3) == 2;
    assert Fib(4) == 3;
    assert Fib(5) == 5;
    assert Fib(6) == 8;
    assert Fib(7) == 13;
    assert Fib(8) == 21;
    assert Fib(9) == 34;
    assert Fib(10) == 55;
    assert Fib(11) == 89;
    assert Fib(12) == 144;
    assert Fib(13) == 233;
    assert Fib(14) == 377;
    assert Fib(15) == 610;
    assert Fib(16) == 987;
    assert Fib(17) == 1597;
    assert Fib(18) == 2584;
    assert Fib(19) == 4181;
    assert Fib(20) == 6765;
    assert Fib(21) == 10946;
    assert Fib(22) == 17711;
    assert Fib(23) == 28657;
    assert Fib(24) == 46368;
    assert Fib(25) == 75025;
    assert Fib(26) == 121393;
    assert Fib(27) == 196418;
    assert Fib(28) == 317811;
    assert Fib(29) == 514229;
    assert Fib(30) == 832040;
    assert Fib(31) == 1346269;
    assert Fib(32) == 2178309;
    assert Fib(33) == 3524578;
    assert Fib(34) == 5702887;
    assert Fib(35) == 9227465;
    assert Fib(36) == 14930352;
    assert Fib(37) == 24157817;
    assert Fib(38) == 39088169;
    assert Fib(39) == 63245986;
    assert Fib(40) == 102334155;
    assert Fib(41) == 165580141;
    assert Fib(42) == 267914296;
    assert Fib(43) == 433494437;
    assert Fib(44) == 701408733;
    assert Fib(45) == 1134903170;
    assert Fib(46) == 1836311903;
    assert Fib(47) == 2971215073;
  }

  /** The base case covers negative inputs: they come back unchanged rather
      than as 0. */
  lemma FibonacciBelowTwo(n: I32)
    requires n <= 1
    ensures Fibonacci(n) == n
    ensures n < 0 ==> Fibonacci(n) < 0
  {
  }

  /** For `0 <= n <= 46` the `i32` function computes the true Fibonacci
      number, so no addition on the way overflows. */
  lemma {:induction false} FibonacciExact(n: I32)
    requires 0 <= n <= 46
    ensures Fibonacci(n) == Fib(n)
    decreases n
  {
    if n >= 2 {
      FibonacciExact(n - 1);
      FibonacciExact(n - 2);
      FibMonotone(n, 46);
      FibAroundI32Limit();
    }
  }

  /** For `2 <= n <= 46` the sum of the two recursive results is in `i32`
      range and equals the result: the recurrence holds without wrap. */
  lemma FibonacciRecurrence(n: I32)
    requires 2 <= n <= 46
    ensures MinI32 <= Fibonacci(n - 1) + Fibonacci(n - 2) <= MaxI32
    ensures Fibonacci(n) == Fibonacci(n - 1) + Fibonacci(n - 2)
  {
    FibonacciExact(n);
    FibonacciExact(n - 1);
    FibonacciExact(n - 2);
  }

  /** Results are non-negative for `0 <= n <= 46`. */
  lemma FibonacciNonNegative(n: I32)
    requires 0 <= n <= 46
    ensures Fibonacci(n) >= 0
  {
    FibonacciExact(n);
  }

  /** Past the limit the addition wraps: whenever the two recursive
      results sum above `i32::MAX`, the result is that sum minus 2^32, which
      is negative. */
  lemma FibonacciWrapsPastLimit(n: I32)
    requires 2 <= n && Fibonacci(n - 1) + Fibonacci(n - 2) > MaxI32
    ensures Fibonacci(n) == Fibonacci(n - 1) + Fibonacci(n - 2) - Modulus
    ensures Fibonacci(n) < 0
  {
  }

  /** `fibonacci(46)`, the largest value that fits. The value is passed as
      a parameter pinned by `requires` rather than written as a literal, so
      that Dafny does not unfold `Fibonacci` on a literal argument. */
  lemma FibonacciAt46(n: I32)
    requires n == 46
    ensures Fibonacci(n) == 1836311903
  {
    FibonacciExact(n);
    FibAroundI32Limit();
  }

  /** `fibonacci(45)`; the parameter is pinned as in `FibonacciAt46`. */
  lemma FibonacciAt45(n: I32)
    requires n == 45
    ensures Fibonacci(n) == 1134903170
  {
    FibonacciExact(n);
    FibAroundI32Limit();
  }

  /** At `n = 47` the addition overflows and the wrapped result is
      negative. */
  lemma FibonacciOverflowsAt47(n: I32)
    requires n == 47
    ensures Fibonacci(n - 1) + Fibonacci(n - 2) > MaxI32
    ensures Fibonacci(n) == -1323752223
  {
    FibonacciAt46(n - 1);
    FibonacciAt45(n - 2);
    FibonacciWrapsPastLimit(n);
  }
}
