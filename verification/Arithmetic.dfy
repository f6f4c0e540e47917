/** The few facts about products and quotients that the solver needs spelled out. */
module Arithmetic {

  /** Integer division that truncates toward zero, for a positive divisor. */
  function GoDiv(a: int, b: int): int
    requires b > 0
  {
    if a >= 0 then a / b else -(-a / b)
  }

  lemma {:induction false} MulMono(a: int, b: int, step: int)
    requires a <= b && step > 0
    ensures a * step <= b * step
  {
  }

  lemma {:induction false} MulAtLeast(m: nat, d: nat)
    requires d >= 1
    ensures m * d >= m
  {
    if d > 1 {
      MulAtLeast(m, d - 1);
      assert m * d == m * (d - 1) + m;
    }
  }

  /** Quotient and remainder are unique. */
  lemma {:induction false} Euclid(x: nat, m: nat, q: nat, r: nat)
    requires r < m && x == m * q + r
    ensures x / m == q && x % m == r
  {
    var q', r' := x / m, x % m;
    assert x == m * q' + r';
    if q > q' {
      MulAtLeast(m, q - q');
    } else if q < q' {
      MulAtLeast(m, q' - q);
    }
  }

  lemma {:induction false} DivStep(a: nat, b: nat)
    requires b > 0
    ensures (a + b) / b == a / b + 1
  {
    var q := a / b;
    assert a == b * q + a % b;
    assert b * (q + 1) == b * q + b;
    Euclid(a + b, b, q + 1, a % b);
  }

  lemma {:induction false} DivMono(a: nat, b: nat, d: nat)
    requires d > 0 && a <= b
    ensures a / d <= b / d
  {
    var p, q := a / d, b / d;
    if q < p {
      MulMono(q + 1, p, d);
    }
  }

  lemma {:induction false} DivZero(a: nat, b: nat)
    requires b > 0
    ensures a / b == 0 <==> a < b
  {
    if a >= b {
      DivMono(b, a, b);
    }
  }

  /** A quotient against a number, in products. */
  lemma {:induction false} DivAtMost(a: nat, d: nat, i: nat)
    requires d > 0
    ensures a / d <= i <==> a < (i + 1) * d
    ensures a / d < i + 1 <==> a < (i + 1) * d
  {
    var q := a / d;
    assert a == d * q + a % d && (q + 1) * d == d * q + d;
    if q <= i {
      MulMono(q + 1, i + 1, d);
    } else {
      MulMono(i + 1, q, d);
    }
  }
}
