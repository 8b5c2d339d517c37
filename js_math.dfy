/**
 * `Math.round` and `Math.ceil` of JavaScript on exact reals. Floating-point
 * representation error is not modelled: the arguments are the exact quotients.
 */
module JsMath {

  /** `Math.round(x)`: the nearest integer, halves rounded towards +infinity. */
  function Round(x: real): (r: int)
    ensures r as real - 0.5 <= x < r as real + 0.5
  {
    (x + 0.5).Floor
  }

  /** `Math.ceil(x)`: the least integer not below `x`. */
  function Ceil(x: real): (r: int)
    ensures r as real - 1.0 < x <= r as real
  {
    -((-x).Floor)
  }

  /** Rounding an exact integer gives it back; rounding is monotone. */
  lemma RoundFacts(x: real, y: real, n: int)
    ensures Round(n as real) == n
    ensures x <= y ==> Round(x) <= Round(y)
  {
  }

  /** On a non-negative quotient, `Math.round(a / b)` is the integer division `(2a + b) / (2b)`. */
  lemma RoundQuotient(a: int, b: int)
    requires a >= 0 && b > 0
    ensures Round(a as real / b as real) == (2 * a + b) / (2 * b)
  {
    var q := (2 * a + b) / (2 * b);
    var A, B, Q := a as real, b as real, q as real;
    assert q * (2 * b) <= 2 * a + b < (q + 1) * (2 * b);
    assert Q * (2.0 * B) <= 2.0 * A + B < (Q + 1.0) * (2.0 * B);
    assert (Q - 0.5) * B <= A < (Q + 0.5) * B;
    DivBounds(A, B, Q - 0.5, Q + 0.5);
    UniqueRound(A / B, q);
  }

  /** Dividing `lo * b <= a < hi * b` by a positive `b`. */
  lemma DivBounds(a: real, b: real, lo: real, hi: real)
    requires b > 0.0 && lo * b <= a < hi * b
    ensures lo <= a / b < hi
  {
    assert (a / b) * b == a;
  }

  /** The integer within half a unit below/above `x` is `Round(x)`. */
  lemma UniqueRound(x: real, q: int)
    requires q as real - 0.5 <= x < q as real + 0.5
    ensures Round(x) == q
  {
  }

  /** On a non-negative quotient, `Math.ceil(a / b)` is the integer division `(a + b - 1) / b`. */
  lemma CeilQuotient(a: int, b: int)
    requires a >= 0 && b > 0
    ensures Ceil(a as real / b as real) == (a + b - 1) / b
  {
    var q := (a + b - 1) / b;
    var A, B, Q := a as real, b as real, q as real;
    assert q * b <= a + b - 1 < (q + 1) * b;
    assert (q - 1) * b < a <= q * b;
    assert (Q - 1.0) * B < A <= Q * B;
    CeilRange(A, B, Q - 1.0, Q);
  }

  /** Dividing `lo * b < a <= hi * b` by a positive `b`. */
  lemma CeilRange(a: real, b: real, lo: real, hi: real)
    requires b > 0.0 && lo * b < a <= hi * b
    ensures lo < a / b <= hi
  {
    assert (a / b) * b == a;
  }

  /** A fraction `p / t` of a positive whole lies in [0, 1]. */
  lemma FractionRange(p: real, t: real)
    requires 0.0 <= p <= t && t > 0.0
    ensures 0.0 <= p / t <= 1.0
    ensures p == t ==> p / t == 1.0
    ensures p == 0.0 ==> p / t == 0.0
  {
    assert (p / t) * t == p;
  }

  /** Rounding a fraction of a whole number `P` stays within [0, P], exactly at the ends. */
  lemma RoundFraction(f: real, P: nat)
    requires 0.0 <= f <= 1.0
    ensures 0 <= Round(f * P as real) <= P
    ensures f == 1.0 ==> Round(f * P as real) == P
    ensures f == 0.0 ==> Round(f * P as real) == 0
  {
    var Q := P as real;
    MulMonoReal(0.0, f, Q);
    MulMonoReal(f, 1.0, Q);
    RoundFacts(0.0, f * Q, 0);
    RoundFacts(f * Q, Q, P);
    if f == 1.0 {
      assert f * Q == Q;
      UniqueRound(f * Q, P);
    }
    if f == 0.0 {
      assert f * Q == 0.0;
      UniqueRound(f * Q, 0);
    }
  }

  /** Losing at least a `1/t` share of `P`, where `P / t` exceeds one half, rounds below `P`. */
  lemma RoundLoss(f: real, P: nat, t: real)
    requires t > 0.0 && f <= 1.0 - 1.0 / t && 2.0 * P as real > t
    ensures Round(f * P as real) < P
  {
    var Q := P as real;
    ShareAboveHalf(Q, t);
    ShareComplement(Q, t);
    MulMonoReal(f, 1.0 - 1.0 / t, Q);
    assert f * Q < Q - 0.5;
  }

  /** `Q / t` exceeds one half when `2Q > t > 0`. */
  lemma ShareAboveHalf(Q: real, t: real)
    requires t > 0.0 && 2.0 * Q > t
    ensures Q / t > 0.5
  {
    assert (Q / t) * t == Q;
  }

  /** What is left after taking a `1/t` share of `Q`. */
  lemma ShareComplement(Q: real, t: real)
    requires t > 0.0
    ensures (1.0 - 1.0 / t) * Q == Q - Q / t
  {
  }

  /** Division by a positive number is monotone. */
  lemma DivMono(a: real, b: real, c: real)
    requires c > 0.0 && a <= b
    ensures a / c <= b / c
  {
    assert (a / c) * c == a && (b / c) * c == b;
  }

  /** Multiplication by a non-negative number is monotone. */
  lemma MulMonoReal(a: real, b: real, c: real)
    requires a <= b && c >= 0.0
    ensures a * c <= b * c
  {
  }
}
