/**
 * The 3-D vector of the physics core: a value type `Vec3` carrying the pure
 * operations (scaling, sums, the three products, magnitudes) and a class
 * `Vector3` whose methods rewrite its components in place, as the engine's
 * `cyclone::Vector3` does. Arithmetic is exact over `real`.
 */
module Core {
  import opened Precision

  /** The value of a vector: its three components. */
  datatype Vec3 = Vec3(x: real, y: real, z: real)
  {
    /** `operator*(real)`: a copy with every component multiplied by `value`. */
    function Scale(value: real): (r: Vec3)
      ensures value == 1.0 ==> r == this
    {
      Vec3(x * value, y * value, z * value)
    }

    /** `operator+`: the component-wise sum. */
    function Add(w: Vec3): (r: Vec3)
      ensures r.Sub(w) == this && r.Sub(this) == w
    {
      Vec3(x + w.x, y + w.y, z + w.z)
    }

    /** `operator-`: the component-wise difference. */
    function Sub(w: Vec3): Vec3
    {
      Vec3(x - w.x, y - w.y, z - w.z)
    }

    /** `componentProduct`: the element-wise product; its components sum to the scalar product. */
    function ComponentProduct(w: Vec3): (r: Vec3)
      ensures r.x + r.y + r.z == ScalarProduct(w)
    {
      Vec3(x * w.x, y * w.y, z * w.z)
    }

    /** `scalarProduct`, also spelled `operator*(const Vector3&)`: the dot product. */
    function ScalarProduct(w: Vec3): real
    {
      x * w.x + y * w.y + z * w.z
    }

    /** `vectorProduct`, also spelled `operator%`: the right-handed cross product,
        orthogonal to both of its operands. */
    function VectorProduct(w: Vec3): (r: Vec3)
      ensures r.ScalarProduct(this) == 0.0 && r.ScalarProduct(w) == 0.0
    {
      Vec3(y * w.z - z * w.y, z * w.x - x * w.z, x * w.y - y * w.x)
    }

    /** `squareMagnitude`: never negative, and positive exactly away from the zero vector. */
    function SquareMagnitude(): (r: real)
      ensures r >= 0.0 && (r > 0.0 <==> this != ZERO)
    {
      SquareSign(x);
      SquareSign(y);
      SquareSign(z);
      x * x + y * y + z * z
    }

    /** `magnitude`: the square root of the squared magnitude. */
    function Magnitude(ops: RealOps): real
    {
      ops.sqrt(SquareMagnitude())
    }

    /** What `invert` computes as written: x becomes -z, y becomes -y, z is kept. */
    function InvertedAsWritten(): Vec3
    {
      Vec3(-z, -y, z)
    }

    /** What `invert` promises: every component flipped, the additive inverse. */
    function Negated(): (r: Vec3)
      ensures r.Add(this) == ZERO && Add(r) == ZERO
    {
      Vec3(-x, -y, -z)
    }

    /** What `normalize` promises: a non-zero vector scaled by the inverse of its
        magnitude; a vector whose magnitude is not positive is left as it is. */
    function Normalized(ops: RealOps): Vec3
    {
      var l := Magnitude(ops);
      if l > 0.0 then Scale(1.0 / l) else this
    }
  }

  /** The vector the default constructor builds. */
  const ZERO := Vec3(0.0, 0.0, 0.0)

  /** Vector addition is commutative. */
  lemma AddCommutes(a: Vec3, b: Vec3)
    ensures a.Add(b) == b.Add(a)
  {
  }

  /** Subtracting a vector is adding its negation. */
  lemma SubIsAddOfNegation(a: Vec3, b: Vec3)
    ensures a.Sub(b) == a.Add(b.Negated())
  {
  }

  /** Negation is scaling by -1, and negating twice gives the vector back. */
  lemma NegatedLaws(v: Vec3)
    ensures v.Negated() == v.Scale(-1.0)
    ensures v.Negated().Negated() == v
  {
  }

  /** The component product is commutative. */
  lemma ComponentProductCommutes(a: Vec3, b: Vec3)
    ensures a.ComponentProduct(b) == b.ComponentProduct(a)
  {
  }

  /** The scalar product is commutative. */
  lemma ScalarProductCommutes(a: Vec3, b: Vec3)
    ensures a.ScalarProduct(b) == b.ScalarProduct(a)
  {
  }

  /** The scalar product of a vector with itself is its squared magnitude, never negative. */
  lemma ScalarProductWithItself(v: Vec3)
    ensures v.ScalarProduct(v) == v.SquareMagnitude()
    ensures v.ScalarProduct(v) >= 0.0
  {
  }

  /** (1,2,3) . (4,5,6) = 32. */
  lemma ScalarProductExample()
    ensures Vec3(1.0, 2.0, 3.0).ScalarProduct(Vec3(4.0, 5.0, 6.0)) == 32.0
  {
  }

  /** The vector product is anti-commutative. */
  lemma VectorProductAntiCommutes(a: Vec3, b: Vec3)
    ensures a.VectorProduct(b) == b.VectorProduct(a).Negated()
  {
  }

  /** The vector product of a vector with itself is the zero vector. */
  lemma VectorProductWithItself(v: Vec3)
    ensures v.VectorProduct(v) == ZERO
  {
  }

  /** (1,2,3) x (4,5,6) = (-3,6,-3). */
  lemma VectorProductExample()
    ensures Vec3(1.0, 2.0, 3.0).VectorProduct(Vec3(4.0, 5.0, 6.0)) == Vec3(-3.0, 6.0, -3.0)
  {
  }

  /** With a lawful square root, the magnitude is the non-negative root of the squared
      magnitude, and it is positive exactly away from the zero vector. */
  lemma MagnitudeLaws(v: Vec3, ops: RealOps)
    requires SqrtLaws(ops)
    ensures v.Magnitude(ops) >= 0.0
    ensures Square(v.Magnitude(ops)) == v.SquareMagnitude()
    ensures v.Magnitude(ops) > 0.0 <==> v != ZERO
  {
    SqrtPositive(ops, v.SquareMagnitude());
  }

  /** `invert` as written agrees with negation exactly on the vectors whose x and z are 0. */
  lemma InvertAsWrittenNegatesOnlyWhen(v: Vec3)
    ensures v.InvertedAsWritten() == v.Negated() <==> v.x == 0.0 && v.z == 0.0
  {
  }

  /** On (1,-2,3) `invert` as written yields (-3,2,3) where flipping every component
      yields (-1,2,-3). */
  lemma InvertAsWrittenCounterexample()
    ensures Vec3(1.0, -2.0, 3.0).InvertedAsWritten() == Vec3(-3.0, 2.0, 3.0)
    ensures Vec3(1.0, -2.0, 3.0).Negated() == Vec3(-1.0, 2.0, -3.0)
  {
  }

  /** `normalize` as written leaves (2,0,0), whose magnitude is 2, as it is, so the
      result does not have unit length. */
  lemma NormalizeAsWrittenMissesUnitLength(ops: RealOps)
    requires SqrtLaws(ops)
    ensures Vec3(2.0, 0.0, 0.0).Magnitude(ops) == 2.0
  {
    var v := Vec3(2.0, 0.0, 0.0);
    assert v.SquareMagnitude() == Square(2.0);
    SqrtOfSquare(ops, 2.0);
  }

  /** The corrected normalization gives a vector of magnitude 1 from any non-zero vector,
      and leaves the zero vector as it is. */
  lemma NormalizedIsUnit(v: Vec3, ops: RealOps)
    requires SqrtLaws(ops)
    ensures v == ZERO ==> v.Normalized(ops) == ZERO
    ensures v != ZERO ==> v.Normalized(ops).Magnitude(ops) == 1.0
  {
    if v != ZERO {
      var s := v.SquareMagnitude();
      var l := v.Magnitude(ops);
      MagnitudeLaws(v, ops);
      var k := 1.0 / l;
      calc {
        v.Normalized(ops).SquareMagnitude();
      ==
        v.Scale(k).SquareMagnitude();
      == { ScaleSquareMagnitude(v, k); }
        Square(k) * s;
      ==
        Square(k) * Square(l);
      ==
        Square(k * l);
      == { assert k * l == 1.0; }
        Square(1.0);
      }
      SqrtOfSquare(ops, 1.0);
    } else {
      MagnitudeLaws(v, ops);
    }
  }

  /** In the basis `makeOrthonormalBasis` builds from distinct vectors, c = a x b and
      the new b = c x a are orthogonal to each other and to a. */
  lemma BasisAsWrittenOrthogonal(a: Vec3, b: Vec3)
    ensures var c := a.VectorProduct(b);
            var d := c.VectorProduct(a);
            c.ScalarProduct(a) == 0.0 && d.ScalarProduct(a) == 0.0 && d.ScalarProduct(c) == 0.0
  {
  }

  /** Scaling one operand scales the scalar product by the same factor. */
  lemma ScaleScalarProduct(v: Vec3, w: Vec3, k: real)
    ensures v.Scale(k).ScalarProduct(w) == k * v.ScalarProduct(w)
  {
  }

  /** Scaling multiplies the squared magnitude by the square of the factor. */
  lemma ScaleSquareMagnitude(v: Vec3, k: real)
    ensures v.Scale(k).SquareMagnitude() == Square(k) * v.SquareMagnitude()
  {
  }

  /** Scaling by a factor in [0, 1] does not increase the squared magnitude. */
  lemma ScaleByFractionShrinks(v: Vec3, k: real)
    requires 0.0 <= k <= 1.0
    ensures v.Scale(k).SquareMagnitude() <= v.SquareMagnitude()
  {
    var t := v.SquareMagnitude();
    calc {
      v.Scale(k).SquareMagnitude();
    == { ScaleSquareMagnitude(v, k); }
      Square(k) * t;
    ==
      k * (k * t);
    <= { assert k * t <= 1.0 * t; }
      k * t;
    <=
      1.0 * t;
    }
  }

  /** Scaling a non-zero vector by a factor in [0, 1) strictly decreases its squared magnitude. */
  lemma ScaleByProperFractionShrinks(v: Vec3, k: real)
    requires 0.0 <= k < 1.0 && v != ZERO
    ensures v.Scale(k).SquareMagnitude() < v.SquareMagnitude()
  {
    var t := v.SquareMagnitude();
    calc {
      v.Scale(k).SquareMagnitude();
    == { ScaleSquareMagnitude(v, k); }
      Square(k) * t;
    ==
      k * (k * t);
    <= { assert k * t <= 1.0 * t; }
      k * t;
    < { assert t > 0.0; }
      1.0 * t;
    }
  }

  /** Lagrange's identity: |v x w|^2 = |v|^2 |w|^2 - (v . w)^2. */
  lemma LagrangeIdentity(v: Vec3, w: Vec3)
    ensures v.VectorProduct(w).SquareMagnitude()
         == v.SquareMagnitude() * w.SquareMagnitude() - Square(v.ScalarProduct(w))
  {
  }

  /** The vector product with the zero vector is zero. */
  lemma VectorProductWithZero(v: Vec3)
    ensures ZERO.VectorProduct(v) == ZERO
  {
  }

  /** The vector product of two parallel vectors is zero. */
  lemma VectorProductOfParallel(v: Vec3, k: real)
    ensures v.VectorProduct(v.Scale(k)) == ZERO
  {
  }

  /** The vector triple product expansion: a x (c x a) = c (a . a) - a (a . c). */
  lemma TripleProductExpansion(a: Vec3, c: Vec3)
    ensures a.VectorProduct(c.VectorProduct(a)) == c.Scale(a.ScalarProduct(a)).Sub(a.Scale(a.ScalarProduct(c)))
  {
    var sq, dot := a.ScalarProduct(a), a.ScalarProduct(c);
    TripleComponent(a.x, a.y, a.z, c.x, c.y, c.z, sq, dot);
    TripleComponent(a.y, a.z, a.x, c.y, c.z, c.x, sq, dot);
    TripleComponent(a.z, a.x, a.y, c.z, c.x, c.y, sq, dot);
  }

  /** One component of the triple product expansion, over plain reals. */
  lemma TripleComponent(ax: real, ay: real, az: real, cx: real, cy: real, cz: real, sq: real, dot: real)
    requires sq == ax * ax + ay * ay + az * az
    requires dot == ax * cx + ay * cy + az * cz
    ensures ay * (cx * ay - cy * ax) - az * (cz * ax - cx * az) == cx * sq - ax * dot
  {
    calc {
      ay * (cx * ay - cy * ax) - az * (cz * ax - cx * az);
    ==
      cx * (ay * ay) - ax * (ay * cy) - ax * (az * cz) + cx * (az * az);
    == { assert cx * (ax * ax) == ax * (ax * cx); }
      cx * (ax * ax) + cx * (ay * ay) + cx * (az * az) - ax * (ax * cx) - ax * (ay * cy) - ax * (az * cz);
    ==
      cx * (ax * ax + ay * ay + az * az) - ax * (ax * cx + ay * cy + az * cz);
    ==
      cx * sq - ax * dot;
    }
  }

  /**
   * The basis the corrected construction builds from `a` and `b`: `a` normalized,
   * then c = a x b normalized, then b = c x a. Whenever a x b is not zero the three
   * vectors have magnitude 1, are pairwise orthogonal, and form a right-handed
   * triple: a x b = c.
   */
  lemma BasisFixedOrthonormal(a: Vec3, b: Vec3, ops: RealOps)
    requires SqrtLaws(ops)
    requires a.Normalized(ops).VectorProduct(b) != ZERO
    ensures var a1 := a.Normalized(ops);
            var c1 := a1.VectorProduct(b).Normalized(ops);
            var b1 := c1.VectorProduct(a1);
            && a1.Magnitude(ops) == 1.0 && b1.Magnitude(ops) == 1.0 && c1.Magnitude(ops) == 1.0
            && a1.ScalarProduct(b1) == 0.0 && a1.ScalarProduct(c1) == 0.0 && b1.ScalarProduct(c1) == 0.0
            && a1.VectorProduct(b1) == c1
  {
    var a1 := a.Normalized(ops);
    var c := a1.VectorProduct(b);
    var c1 := c.Normalized(ops);
    var b1 := c1.VectorProduct(a1);
    if a == ZERO {
      NormalizedIsUnit(a, ops);
      VectorProductWithZero(b);
      assert false;
    }
    NormalizedIsUnit(a, ops);
    NormalizedIsUnit(c, ops);
    MagnitudeLaws(a1, ops);
    MagnitudeLaws(c1, ops);
    assert a1.SquareMagnitude() == 1.0 by { assert Square(1.0) == 1.0; }
    assert c1.SquareMagnitude() == 1.0 by { assert Square(1.0) == 1.0; }
    var k := 1.0 / c.Magnitude(ops);
    assert c1 == c.Scale(k) by { MagnitudeLaws(c, ops); }
    ScaleScalarProduct(c, a1, k);
    assert c1.ScalarProduct(a1) == 0.0;
    ScalarProductCommutes(c1, a1);
    ScalarProductCommutes(b1, a1);
    ScalarProductCommutes(b1, c1);
    LagrangeIdentity(c1, a1);
    assert b1.SquareMagnitude() == 1.0 by { SquareSign(0.0); }
    SqrtOfSquare(ops, 1.0);
    assert a1.VectorProduct(b1) == c1 by {
      TripleProductExpansion(a1, c1);
      ScalarProductWithItself(a1);
      assert a1.Scale(0.0) == ZERO;
      assert c1.Scale(1.0).Sub(ZERO) == c1;
    }
  }

  /** A cell holding one vector whose components the methods rewrite in place. */
  class Vector3 {
    var x: real
    var y: real
    var z: real

    /** The current value of the cell. */
    function Value(): Vec3
      reads this
    {
      Vec3(x, y, z)
    }

    /** The default constructor builds the zero vector. */
    constructor ()
      ensures Value() == ZERO
    {
      x, y, z := 0.0, 0.0, 0.0;
    }

    /** The explicit constructor stores exactly the given components. */
    constructor Init(x: real, y: real, z: real)
      ensures this.x == x && this.y == y && this.z == z
    {
      this.x, this.y, this.z := x, y, z;
    }

    /** Copy assignment `*this = v`. */
    method Assign(v: Vec3)
      modifies this
      ensures Value() == v
    {
      x, y, z := v.x, v.y, v.z;
    }

    /** `invert` as written: the third statement writes x a second time and z is never
        touched, so the result is `InvertedAsWritten`, not the negation. */
    method Invert()
      modifies this
      ensures Value() == old(Value()).InvertedAsWritten()
    {
      x := -x;
      y := -y;
      x := -z;
    }

    /** `invert` as its comment describes it: all three components flipped. */
    method InvertFixed()
      modifies this
      ensures Value() == old(Value()).Negated()
    {
      x := -x;
      y := -y;
      z := -z;
    }

    /** `normalize` as written: it scales by l/l, which is 1, so the vector never changes. */
    method Normalize(ops: RealOps)
      modifies this
      ensures Value() == old(Value())
    {
      var l := Value().Magnitude(ops);
      if l > 0.0 {
        ScaleInPlace(l / l);
      }
    }

    /** `normalize` as its comment describes it: scaled by the inverse magnitude. */
    method NormalizeFixed(ops: RealOps)
      modifies this
      ensures Value() == old(Value()).Normalized(ops)
    {
      var l := Value().Magnitude(ops);
      if l > 0.0 {
        ScaleInPlace(1.0 / l);
      }
    }

    /** `operator*=`: agrees with `Scale`. */
    method ScaleInPlace(value: real)
      modifies this
      ensures Value() == old(Value()).Scale(value)
    {
      x := x * value;
      y := y * value;
      z := z * value;
    }

    /** `operator+=`: agrees with `Add`; the argument may be this very vector. */
    method AddInPlace(v: Vector3)
      modifies this
      ensures Value() == old(Value()).Add(old(v.Value()))
      ensures v != this ==> v.Value() == old(v.Value())
    {
      x := x + v.x;
      y := y + v.y;
      z := z + v.z;
    }

    /** `operator-=`: agrees with `Sub`; the argument may be this very vector. */
    method SubtractInPlace(v: Vector3)
      modifies this
      ensures Value() == old(Value()).Sub(old(v.Value()))
      ensures v != this ==> v.Value() == old(v.Value())
    {
      x := x - v.x;
      y := y - v.y;
      z := z - v.z;
    }

    /** `addScaledVector`: the same as `*this += vector * scale`. */
    method AddScaledVector(vector: Vector3, scale: real)
      modifies this
      ensures Value() == old(Value()).Add(old(vector.Value()).Scale(scale))
      ensures vector != this ==> vector.Value() == old(vector.Value())
    {
      x := x + vector.x * scale;
      y := y + vector.y * scale;
      z := z + vector.z * scale;
    }

    /** `componentProductUpdate`: agrees with `ComponentProduct`. */
    method ComponentProductUpdate(vector: Vector3)
      modifies this
      ensures Value() == old(Value()).ComponentProduct(old(vector.Value()))
      ensures vector != this ==> vector.Value() == old(vector.Value())
    {
      x := x * vector.x;
      y := y * vector.y;
      z := z * vector.z;
    }

    /** `operator%=`: the product is computed from the old value before it is stored,
        so `v %= v` leaves the zero vector. */
    method VectorProductUpdate(vector: Vector3)
      modifies this
      ensures Value() == old(Value()).VectorProduct(old(vector.Value()))
      ensures vector != this ==> vector.Value() == old(vector.Value())
      ensures vector == this ==> Value() == ZERO
    {
      Assign(Value().VectorProduct(vector.Value()));
    }

    /**
     * `makeOrthonormalBasis` as written. The three vectors may be the same objects.
     * `a` is normalized (which leaves it as it is), `c` receives a x b; if that has
     * squared magnitude 0 the method stops, otherwise `c` is normalized (again a no-op)
     * and `b` receives c x a.
     */
    static method MakeOrthonormalBasis(a: Vector3, b: Vector3, c: Vector3, ops: RealOps)
      modifies a, b, c
      ensures
        var A, B := old(a.Value()), old(b.Value());
        var C := A.VectorProduct(B);
        var A1 := if a == c then C else A;
        var B1 := if b == c then C else B;
        if C.SquareMagnitude() == 0.0 then
          a.Value() == A1 && b.Value() == B1 && c.Value() == C
        else
          var D := C.VectorProduct(A1);
          && b.Value() == D
          && c.Value() == (if c == b then D else C)
          && a.Value() == (if a == b then D else A1)
      ensures a != b && b != c && a != c ==>
        && a.Value() == old(a.Value())
        && c.Value() == old(a.Value()).VectorProduct(old(b.Value()))
        && b.Value() == if c.Value() == ZERO then old(b.Value()) else c.Value().VectorProduct(a.Value())
    {
      ghost var A, B := a.Value(), b.Value();
      ghost var C := A.VectorProduct(B);
      a.Normalize(ops);
      c.Assign(a.Value().VectorProduct(b.Value()));
      ghost var A1, B1 := a.Value(), b.Value();
      assert A1 == if a == c then C else A;
      assert B1 == if b == c then C else B;
      if c.Value().SquareMagnitude() == 0.0 {
        return;
      }
      c.Normalize(ops);
      b.Assign(c.Value().VectorProduct(a.Value()));
    }

    /**
     * `makeOrthonormalBasis` with the corrected normalization. For three distinct
     * vectors the result is the basis of `BasisFixedOrthonormal`; when a x b is zero,
     * `b` is left as it is and `c` is zero.
     */
    static method MakeOrthonormalBasisFixed(a: Vector3, b: Vector3, c: Vector3, ops: RealOps)
      modifies a, b, c
      ensures
        var A := old(a.Value()).Normalized(ops);
        var B := if b == a then A else old(b.Value());
        var C := A.VectorProduct(B);
        var A1 := if a == c then C else A;
        var B1 := if b == c then C else B;
        if C.SquareMagnitude() == 0.0 then
          a.Value() == A1 && b.Value() == B1 && c.Value() == C
        else
          var C1 := C.Normalized(ops);
          var A2 := if a == c then C1 else A1;
          var D := C1.VectorProduct(A2);
          && b.Value() == D
          && c.Value() == (if c == b then D else C1)
          && a.Value() == (if a == b then D else A2)
      ensures a != b && b != c && a != c ==>
        var A := old(a.Value()).Normalized(ops);
        var C := A.VectorProduct(old(b.Value()));
        && a.Value() == A
        && c.Value() == (if C == ZERO then ZERO else C.Normalized(ops))
        && b.Value() == (if C == ZERO then old(b.Value()) else c.Value().VectorProduct(A))
    {
      ghost var A := a.Value().Normalized(ops);
      ghost var B := if b == a then A else b.Value();
      ghost var C := A.VectorProduct(B);
      a.NormalizeFixed(ops);
      c.Assign(a.Value().VectorProduct(b.Value()));
      ghost var A1, B1 := a.Value(), b.Value();
      assert A1 == if a == c then C else A;
      assert B1 == if b == c then C else B;
      if c.Value().SquareMagnitude() == 0.0 {
        return;
      }
      c.NormalizeFixed(ops);
      ghost var A2 := a.Value();
      assert A2 == if a == c then C.Normalized(ops) else A1;
      b.Assign(c.Value().VectorProduct(a.Value()));
    }
  }
}
