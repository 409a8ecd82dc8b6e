/**
 * The numeric helpers that the engine's precision header supplies: `real_sqrt`
 * and `real_pow`. That header is not part of this model, so the two helpers are
 * passed in as values, and the properties the vector and particle proofs rely
 * on are stated as predicates over them.
 */
module Precision {

  /** The square-root and power helpers used by the vector and particle code. */
  datatype RealOps = RealOps(sqrt: real -> real, pow: (real, real) -> real)

  /** `t` times itself. */
  function Square(t: real): real
  {
    t * t
  }

  /** `sqrt` is the non-negative square root on the non-negative reals. */
  ghost predicate SqrtLaws(ops: RealOps)
  {
    forall s :: s >= 0.0 ==> ops.sqrt(s) >= 0.0 && Square(ops.sqrt(s)) == s
  }

  /** `pow(1, d)` is 1, a base in [0, 1] raised to a positive exponent stays in [0, 1],
      and a base in [0, 1) raised to a positive exponent stays below 1. */
  ghost predicate PowLaws(ops: RealOps)
  {
    && (forall d :: ops.pow(1.0, d) == 1.0)
    && (forall p, d :: 0.0 <= p <= 1.0 && d > 0.0 ==> 0.0 <= ops.pow(p, d) <= 1.0)
    && (forall p, d :: 0.0 <= p < 1.0 && d > 0.0 ==> ops.pow(p, d) < 1.0)
  }

  /** A square is never negative, and it is positive away from zero. */
  lemma SquareSign(t: real)
    ensures Square(t) >= 0.0 && (Square(t) > 0.0 <==> t != 0.0)
  {
    if t < 0.0 {
      calc { Square(t); == (-t) * (-t); > 0.0; }
    } else if t > 0.0 {
      calc { Square(t); == t * t; > 0.0; }
    } else {
      calc { Square(t); == 0.0 * 0.0; == 0.0; }
    }
  }

  /** Squaring is strictly increasing on the non-negative reals. */
  lemma SquareMonotonic(r: real, t: real)
    requires 0.0 <= r < t
    ensures Square(r) < Square(t)
  {
    calc {
      Square(r);
    ==
      r * r;
    <= { assert r <= t; }
      r * t;
    <
      t * t;
    ==
      Square(t);
    }
  }

  /** Squaring is injective on the non-negative reals. */
  lemma SquareInjective(r: real, t: real)
    requires r >= 0.0 && t >= 0.0 && Square(r) == Square(t)
    ensures r == t
  {
    if r < t {
      SquareMonotonic(r, t);
    } else if t < r {
      SquareMonotonic(t, r);
    }
  }

  /** A lawful square root is positive exactly on the positive reals. */
  lemma SqrtPositive(ops: RealOps, s: real)
    requires SqrtLaws(ops) && s >= 0.0
    ensures ops.sqrt(s) > 0.0 <==> s > 0.0
  {
    SquareSign(ops.sqrt(s));
  }

  /** A lawful square root of the square of a non-negative number gives that number back. */
  lemma SqrtOfSquare(ops: RealOps, t: real)
    requires SqrtLaws(ops) && t >= 0.0
    ensures ops.sqrt(Square(t)) == t
  {
    SquareSign(t);
    SquareInjective(ops.sqrt(Square(t)), t);
  }
}
