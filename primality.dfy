/** The mathematical side of the trial-division primality test: what "prime"
    means, and why trying divisors only up to the square root is enough. */
module Primality {

  /** Reference definition: at least 2 and no divisor strictly between 1 and itself. */
  ghost predicate IsPrime(n: int)
  {
    n >= 2 && forall d :: 2 <= d < n ==> n % d != 0
  }

  /** `d` is a divisor of `n` other than 1 and `n`. */
  ghost predicate ProperDivisor(d: int, n: int)
  {
    2 <= d < n && n % d == 0
  }

  /** Multiplying by a non-negative factor keeps an order. */
  lemma {:induction false} MulMonotone(c: int, a: int, b: int)
    requires c >= 0 && a <= b
    ensures c * a <= c * b
    decreases c
  {
    if c > 0 {
      MulMonotone(c - 1, a, b);
      assert c * a == (c - 1) * a + a;
      assert c * b == (c - 1) * b + b;
    }
  }

  /** A multiple of `e` leaves no remainder when divided by `e`. */
  lemma {:induction false} MultipleHasZeroRemainder(e: int, d: int)
    requires e > 0 && d >= 0
    ensures (e * d) % e == 0
  {
    var n := e * d;
    var q, r := n / e, n % e;
    assert n == e * q + r && 0 <= r < e;
    assert e * (d - q) == r;
    if d - q >= 1 {
      MulMonotone(e, 1, d - q);
      assert false;
    } else if d - q <= -1 {
      MulMonotone(e, d - q, -1);
      assert false;
    }
  }

  /** Every proper divisor `d` of `n` is paired with a proper cofactor `n / d`,
      and the smaller of the two is at most the square root of `n`. */
  lemma {:induction false} SmallerCofactor(n: int, d: int) returns (s: int)
    requires ProperDivisor(d, n)
    ensures ProperDivisor(s, n) && s * s <= n
  {
    var e := n / d;
    assert n == d * e;
    assert e >= 2 by {
      if e <= 0 {
        MulMonotone(d, e, 0);
        assert false;
      } else if e == 1 {
        assert false;
      }
    }
    MulMonotone(e, 2, d);
    assert e < n;
    MultipleHasZeroRemainder(e, d);
    if d <= e {
      MulMonotone(d, d, e);
      s := d;
    } else {
      MulMonotone(e, e, d);
      s := e;
    }
  }

  /** The correctness argument of the square-root bound: if no candidate in
      [2, i) divides `n` and i*i already exceeds `n`, then `n` is prime. */
  lemma {:induction false} SquareRootBoundSuffices(n: int, i: int)
    requires n >= 2 && i >= 2 && i * i > n
    requires forall d :: 2 <= d < i ==> n % d != 0
    ensures IsPrime(n)
  {
    forall d | 2 <= d < n
      ensures n % d != 0
    {
      if n % d == 0 {
        var s := SmallerCofactor(n, d);
        if s >= i {
          MulMonotone(s, i, s);
          MulMonotone(i, i, s);
          assert false;
        }
      }
    }
  }

  /** A candidate divisor inside the search range that divides `n` refutes primality. */
  lemma {:induction false} CandidateDivisorRefutes(n: int, i: int)
    requires i >= 2 && i * i <= n && n % i == 0
    ensures !IsPrime(n)
  {
    MulMonotone(i, 2, i);
    assert ProperDivisor(i, n);
  }

  /** Trial division up to the square root is a complete test: `n` is prime
      exactly when it is at least 2 and no `d` with 2 <= d and d * d <= n divides it. */
  lemma {:induction false} PrimeIffNoCandidateDivides(n: int)
    ensures IsPrime(n) <==> n >= 2 && forall d :: 2 <= d && d * d <= n ==> n % d != 0
  {
    if IsPrime(n) {
      forall d | 2 <= d && d * d <= n
        ensures n % d != 0
      {
        MulMonotone(d, 2, d);
      }
    } else if n >= 2 {
      var d :| 2 <= d < n && n % d == 0;
      var s := SmallerCofactor(n, d);
      assert 2 <= s && s * s <= n && n % s == 0;
    }
  }

  /** A candidate beyond the square root, tried only after every smaller
      candidate failed, never divides `n`: the number is prime by then. */
  lemma {:induction false} OvershootCandidateNeverDivides(n: int, i: int)
    requires 2 <= i < n && i * i > n
    requires forall d :: 2 <= d < i ==> n % d != 0
    ensures n % i != 0
  {
    SquareRootBoundSuffices(n, i);
  }

  /** 9 is not prime: 3 lies in the search range and divides it. */
  lemma NineIsNotPrime()
    ensures !IsPrime(9)
  {
    CandidateDivisorRefutes(9, 3);
  }

  /** 17 is prime: none of 2, 3, 4 divides it and 5 * 5 > 17. */
  lemma SeventeenIsPrime()
    ensures IsPrime(17)
  {
    forall d | 2 <= d < 5
      ensures 17 % d != 0
    {
      assert d == 2 || d == 3 || d == 4;
    }
    SquareRootBoundSuffices(17, 5);
  }
}
