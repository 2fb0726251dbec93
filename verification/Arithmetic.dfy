/** Integer division as Rust does it, and the few facts about products and quotients the models need. */
module Arithmetic {

  /** Rust's integer division truncates toward zero. */
  function TruncDiv(a: int, b: int): int
    requires b > 0
  {
    if a >= 0 then a / b else -((-a) / b)
  }

  /** `x` is `v` without its fraction. */
  predicate Truncates(x: int, v: real) {
    if v >= 0.0 then 0 <= x && x as real <= v < (x + 1) as real else x <= 0 && (x - 1) as real < v <= x as real
  }

  lemma QuotientNegated(n: int, b: nat)
    requires b > 0
    ensures (-n) as real / b as real == -(n as real / b as real)
  {
  }

  lemma TruncDivTruncates(a: int, b: int)
    requires b > 0
    ensures Truncates(TruncDiv(a, b), a as real / b as real)
  {
    var n: nat := if a >= 0 then a else -a;
    QuotientFloor(n, b);
    if a < 0 {
      QuotientNegated(n, b);
    }
  }

  lemma QuotientFloor(n: nat, b: nat)
    requires b > 0
    ensures (n / b) as real <= n as real / b as real < (n / b + 1) as real
  {
    var q := n / b;
    assert n == q * b + n % b;
    QuotientReal(n, b, q);
  }

  function Times(a: real, b: real): real {
    a * b
  }

  lemma SignOfFactor(x: real, b: real)
    requires b > 0.0
    ensures Times(x, b) >= 0.0 ==> x >= 0.0
    ensures Times(x, b) < b ==> x < 1.0
  {
    if x < 0.0 {
      assert x * b < 0.0;
    }
    if x >= 1.0 {
      assert (x - 1.0) * b >= 0.0;
    }
  }

  lemma TimesQuotient(x: real, b: real, q: real)
    requires b > 0.0
    ensures Times(x / b - q, b) == x - Times(q, b)
  {
    var v := x / b;
    assert v * b == x;
    assert (v - q) * b == v * b - q * b;
  }

  lemma TimesNat(q: nat, b: nat)
    ensures Times(q as real, b as real) == (q * b) as real
  {
  }

  lemma QuotientReal(n: nat, b: nat, q: nat)
    requires b > 0 && q * b <= n < q * b + b
    ensures q as real <= n as real / b as real < (q + 1) as real
  {
    hide Times;
    TimesNat(q, b);
    TimesQuotient(n as real, b as real, q as real);
    SignOfFactor(n as real / b as real - q as real, b as real);
  }

  lemma MulLe(n: nat, a: int, b: int)
    requires a <= b
    ensures a * n <= b * n
  {
    assert b * n - a * n == (b - a) * n;
  }

  /** A quotient and a remainder in range are the only ones. */
  lemma QuotientIs(a: int, n: nat, q: int, r: nat)
    requires a == q * n + r && r < n
    ensures a / n == q && a % n == r
  {
    var q1, r1 := a / n, a % n;
    assert a == q1 * n + r1;
    if q1 > q {
      MulLe(n, q + 1, q1);
    } else if q1 < q {
      MulLe(n, q1 + 1, q);
    }
  }

  lemma DivMonotone(x: int, y: int, d: nat)
    requires x <= y && d > 0
    ensures x / d <= y / d
  {
    var p, q := x / d, y / d;
    assert x == p * d + x % d && y == q * d + y % d;
    if p > q {
      MulLe(d, q + 1, p);
    }
  }

  /** Counting around a loop of `n`. */
  lemma NextModulo(a: nat, n: nat)
    requires n > 0
    ensures (a + 1) % n == if a % n + 1 == n then 0 else a % n + 1
    ensures (a + 1) / n == a / n + if a % n + 1 == n then 1 else 0
  {
    var q, r := a / n, a % n;
    assert a == q * n + r;
    if r + 1 == n {
      assert a + 1 == (q + 1) * n + 0;
      QuotientIs(a + 1, n, q + 1, 0);
    } else {
      QuotientIs(a + 1, n, q, r + 1);
    }
  }
}
