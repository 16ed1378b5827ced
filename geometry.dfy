/**
 * Vectors, sizes and axis-aligned boxes shared by every spatial component.
 *
 * Coordinates are exact reals.  Every "distance < bound" test of the game is
 * stated on squared distances (`WithinDistance`), which needs no square root;
 * `SquaredComparison` shows that this is the same test as comparing the real
 * distance.  Where a component needs an actual length (normalising a vector,
 * reporting a distance), it receives a square-root function `sqrt` that
 * satisfies `IsSqrt`.
 */
module Geometry {

  datatype Vec3 = Vec3(x: real, y: real, z: real)

  /** The `{ width, height, depth }` records used for collider and query sizes. */
  datatype Size = Size(width: real, height: real, depth: real)

  /** An axis-aligned box given by its two corners. */
  datatype Box = Box(min: Vec3, max: Vec3)

  const Zero := Vec3(0.0, 0.0, 0.0)

  function Add(a: Vec3, b: Vec3): Vec3 {
    Vec3(a.x + b.x, a.y + b.y, a.z + b.z)
  }

  function Sub(a: Vec3, b: Vec3): Vec3 {
    Vec3(a.x - b.x, a.y - b.y, a.z - b.z)
  }

  function Scale(v: Vec3, k: real): Vec3 {
    Vec3(v.x * k, v.y * k, v.z * k)
  }

  /**
   * The square of a real.  Products of two unknowns are kept behind this
   * function so that proofs combine facts about `Sq` terms linearly.
   */
  function Sq(a: real): real {
    a * a
  }

  /** Squared Euclidean length. */
  function Len2(v: Vec3): real {
    Sq(v.x) + Sq(v.y) + Sq(v.z)
  }

  function Dist2(a: Vec3, b: Vec3): real {
    Len2(Sub(a, b))
  }

  /** Squared distance on the ground plane (y ignored), as the world queries measure it. */
  function Dist2XZ(a: Vec3, b: Vec3): real {
    Sq(a.x - b.x) + Sq(a.z - b.z)
  }

  /** "distance < bound" for a distance whose square is `d2`. */
  predicate WithinDistance(d2: real, bound: real) {
    0.0 < bound && d2 < Sq(bound)
  }

  /** `sqrt` returns the non-negative square root of every non-negative real. */
  ghost predicate IsSqrt(sqrt: real -> real) {
    forall x :: 0.0 <= x ==> 0.0 <= sqrt(x) && Sq(sqrt(x)) == x
  }

  /** Vector3.length(). */
  function Length(v: Vec3, sqrt: real -> real): real {
    sqrt(Len2(v))
  }

  function Abs(r: real): real {
    if r < 0.0 then -r else r
  }

  /** THREE.MathUtils.clamp: `max(lo, min(hi, v))`. */
  function Clamp(v: real, lo: real, hi: real): (r: real)
    requires lo <= hi
    ensures lo <= r <= hi
    ensures lo <= v <= hi ==> r == v
    ensures v < lo ==> r == lo
    ensures hi < v ==> r == hi
  {
    var m := if hi < v then hi else v;
    if m < lo then lo else m
  }

  /** Vector3.normalize: divide by the length, or by 1 when the length is 0. */
  function Normalize(v: Vec3, sqrt: real -> real): (u: Vec3)
    requires IsSqrt(sqrt)
    ensures v == Zero ==> u == Zero
    ensures v != Zero ==> Len2(u) == 1.0
    ensures v != Zero ==> exists k: real :: 0.0 < k && u == Scale(v, k)
  {
    var len := Length(v, sqrt);
    LengthZeroIffZero(v, sqrt);
    LengthNonNegative(v, sqrt);
    if len == 0.0 then v
    else
      ScaleToLength(v, sqrt, 1.0);
      assert 0.0 < 1.0 / len;
      Scale(v, 1.0 / len)
  }

  /** Scaling twice is scaling by the product. */
  lemma ScaleScale(v: Vec3, a: real, b: real)
    ensures Scale(Scale(v, a), b) == Scale(v, a * b)
  {
    assert v.x * a * b == v.x * (a * b);
    assert v.y * a * b == v.y * (a * b);
    assert v.z * a * b == v.z * (a * b);
  }

  /** `a * b`, kept behind a function for the same reason as `Sq`. */
  function Mul(a: real, b: real): real {
    a * b
  }

  lemma MulCommutes(a: real, b: real)
    ensures Mul(a, b) == Mul(b, a)
  {
    assert a * b == b * a;
  }

  lemma SquareIsMul(a: real)
    ensures Sq(a) == Mul(a, a)
  {
    assert Sq(a) == a * a;
    assert Mul(a, a) == a * a;
  }

  lemma MulLeq(a: real, b: real, c: real)
    requires a <= b && 0.0 <= c
    ensures Mul(a, c) <= Mul(b, c)
  {
    assert Mul(a, c) == a * c;
    assert Mul(b, c) == b * c;
    assert b * c - a * c == (b - a) * c;
  }

  lemma MulLess(a: real, b: real, c: real)
    requires a < b && 0.0 < c
    ensures Mul(a, c) < Mul(b, c)
  {
    assert Mul(a, c) == a * c;
    assert Mul(b, c) == b * c;
    assert b * c - a * c == (b - a) * c;
  }

  lemma SquareOfPositive(a: real)
    requires 0.0 < a
    ensures 0.0 < Sq(a)
  {
    MulLess(0.0, a, a);
    assert Mul(0.0, a) == 0.0 * a;
    SquareIsMul(a);
  }

  lemma SquareOfNegation(a: real)
    ensures Sq(-a) == Sq(a)
  {
    assert Sq(-a) == (-a) * (-a);
    assert Sq(a) == a * a;
  }

  lemma SquarePositive(a: real)
    requires a != 0.0
    ensures 0.0 < Sq(a)
  {
    if a < 0.0 {
      SquareOfPositive(-a);
      SquareOfNegation(a);
    } else {
      SquareOfPositive(a);
    }
  }

  lemma SquareOfZero()
    ensures Sq(0.0) == 0.0
  {
    assert Sq(0.0) == 0.0 * 0.0;
  }

  lemma SquareNonNegative(a: real)
    ensures 0.0 <= Sq(a)
  {
    if a != 0.0 {
      SquarePositive(a);
    } else {
      SquareOfZero();
    }
  }

  lemma SquareOfProduct(a: real, b: real)
    ensures Sq(a * b) == Sq(a) * Sq(b)
  {
    assert Sq(a * b) == (a * b) * (a * b);
    assert Sq(a) == a * a;
    assert Sq(b) == b * b;
  }

  lemma SquareLeq(a: real, b: real)
    requires 0.0 <= a <= b
    ensures Sq(a) <= Sq(b)
  {
    SquareIsMul(a);
    SquareIsMul(b);
    MulLeq(a, b, a);
    MulLeq(a, b, b);
    MulCommutes(a, b);
  }

  /** Squaring is strictly increasing on the non-negative reals. */
  lemma SquareLess(a: real, b: real)
    requires 0.0 <= a < b
    ensures Sq(a) < Sq(b)
  {
    SquareIsMul(a);
    SquareIsMul(b);
    MulLeq(a, b, a);
    MulLess(a, b, b);
    MulCommutes(a, b);
  }

  lemma Len2NonNegative(v: Vec3)
    ensures 0.0 <= Len2(v)
    ensures v != Zero ==> 0.0 < Len2(v)
  {
    SquareNonNegative(v.x);
    SquareNonNegative(v.y);
    SquareNonNegative(v.z);
    if v.x != 0.0 { SquarePositive(v.x); }
    if v.y != 0.0 { SquarePositive(v.y); }
    if v.z != 0.0 { SquarePositive(v.z); }
  }

  lemma LengthNonNegative(v: Vec3, sqrt: real -> real)
    requires IsSqrt(sqrt)
    ensures 0.0 <= Length(v, sqrt)
  {
    Len2NonNegative(v);
    SqrtZeroIffZero(Len2(v), sqrt);
  }

  lemma LengthZeroIffZero(v: Vec3, sqrt: real -> real)
    requires IsSqrt(sqrt)
    ensures Length(v, sqrt) == 0.0 <==> v == Zero
  {
    Len2NonNegative(v);
    SqrtZeroIffZero(Len2(v), sqrt);
    if v == Zero {
      Len2OfZero();
    }
  }

  lemma Len2OfZero()
    ensures Len2(Zero) == 0.0
  {
    SquareOfZero();
  }

  lemma SqrtZeroIffZero(x: real, sqrt: real -> real)
    requires IsSqrt(sqrt) && 0.0 <= x
    ensures 0.0 <= sqrt(x) && Sq(sqrt(x)) == x
    ensures sqrt(x) == 0.0 <==> x == 0.0
  {
    var s := sqrt(x);
    if s != 0.0 {
      SquarePositive(s);
    } else {
      SquareOfZero();
    }
  }

  lemma Len2Scale(v: Vec3, k: real)
    ensures Len2(Scale(v, k)) == Sq(k) * Len2(v)
  {
    SquareOfProduct(v.x, k);
    SquareOfProduct(v.y, k);
    SquareOfProduct(v.z, k);
    assert Sq(v.x) * Sq(k) + Sq(v.y) * Sq(k) + Sq(v.z) * Sq(k) == Sq(k) * (Sq(v.x) + Sq(v.y) + Sq(v.z));
  }

  /** Scaling a non-zero vector by `target / length` gives it squared length `target²`. */
  lemma ScaleToLength(v: Vec3, sqrt: real -> real, target: real)
    requires IsSqrt(sqrt)
    requires v != Zero
    ensures Length(v, sqrt) != 0.0
    ensures Len2(Scale(v, target / Length(v, sqrt))) == Sq(target)
  {
    LengthZeroIffZero(v, sqrt);
    var len := Length(v, sqrt);
    Len2NonNegative(v);
    assert Sq(len) == Len2(v);
    Len2Scale(v, target / len);
    SquareOfProduct(target / len, len);
    assert (target / len) * len == target;
  }

  /**
   * Comparing squared distances is the same as comparing distances: for the
   * non-negative `d` whose square is `d2`, `d < bound` exactly when
   * `WithinDistance(d2, bound)`.
   */
  lemma SquaredComparison(d: real, d2: real, bound: real)
    requires 0.0 <= d && Sq(d) == d2
    ensures d < bound <==> WithinDistance(d2, bound)
  {
    if d < bound {
      SquareLess(d, bound);
    } else if 0.0 < bound {
      SquareLeq(bound, d);
    }
  }

  /** The same comparison, for the distance a square-root function reports. */
  lemma SqrtComparison(d2: real, bound: real, sqrt: real -> real)
    requires IsSqrt(sqrt) && 0.0 <= d2
    ensures sqrt(d2) < bound <==> WithinDistance(d2, bound)
  {
    SquaredComparison(sqrt(d2), d2, bound);
  }

  /** For a non-negative bound, `bound < sqrt(d2)` is the same test as `Sq(bound) < d2`. */
  lemma SqrtGreater(d2: real, bound: real, sqrt: real -> real)
    requires IsSqrt(sqrt) && 0.0 <= d2 && 0.0 <= bound
    ensures bound < sqrt(d2) <==> Sq(bound) < d2
  {
    var s := sqrt(d2);
    if bound < s {
      SquareLess(bound, s);
    } else {
      SquareLeq(s, bound);
    }
  }

  /** The non-negative square root is unique. */
  lemma SqrtOfSquare(a: real, sqrt: real -> real)
    requires IsSqrt(sqrt) && 0.0 <= a
    ensures sqrt(Sq(a)) == a
  {
    SquareNonNegative(a);
    var s := sqrt(Sq(a));
    if s < a {
      SquareLess(s, a);
    } else if a < s {
      SquareLess(a, s);
    }
  }

  /** A coordinate whose square is below the square of a positive radius lies strictly within it. */
  lemma AxisWithinRadius(d: real, r: real)
    requires 0.0 < r && Sq(d) < Sq(r)
    ensures -r < d < r
  {
    if r <= d {
      SquareLeq(r, d);
    } else if d <= -r {
      SquareOfNegation(d);
      SquareLeq(r, -d);
    }
  }

  /** A point strictly inside a circle on the ground lies strictly inside the circle's bounding square. */
  lemma InsideCircleXZ(p: Vec3, c: Vec3, r: real)
    requires WithinDistance(Dist2XZ(p, c), r)
    ensures c.x - r < p.x < c.x + r && c.z - r < p.z < c.z + r
  {
    SquareNonNegative(p.x - c.x);
    SquareNonNegative(p.z - c.z);
    AxisWithinRadius(p.x - c.x, r);
    AxisWithinRadius(p.z - c.z, r);
  }

  /** The box `center ± size/2` that every query and collider uses. */
  function BoxAround(center: Vec3, size: Size): Box {
    Box(Vec3(center.x - size.width / 2.0, center.y - size.height / 2.0, center.z - size.depth / 2.0),
        Vec3(center.x + size.width / 2.0, center.y + size.height / 2.0, center.z + size.depth / 2.0))
  }

  /** AABB overlap with strict inequalities on all three axes. */
  predicate Intersects(a: Box, b: Box) {
    && a.min.x < b.max.x && a.max.x > b.min.x
    && a.min.y < b.max.y && a.max.y > b.min.y
    && a.min.z < b.max.z && a.max.z > b.min.z
  }

  lemma IntersectsSymmetric(a: Box, b: Box)
    ensures Intersects(a, b) <==> Intersects(b, a)
  {
  }

  /** Boxes that only share a face (on any axis) do not intersect. */
  lemma TouchingBoxesDoNotIntersect(a: Box, b: Box)
    requires a.max.x == b.min.x || a.max.y == b.min.y || a.max.z == b.min.z
    ensures !Intersects(a, b)
  {
  }

  /**
   * Two boxes of the same size built around two centres overlap exactly when
   * the centres are closer than the size on every axis.
   */
  lemma SameSizeBoxesIntersect(p: Vec3, q: Vec3, size: Size)
    ensures Intersects(BoxAround(p, size), BoxAround(q, size)) <==>
      && Abs(p.x - q.x) < size.width
      && Abs(p.y - q.y) < size.height
      && Abs(p.z - q.z) < size.depth
  {
  }

  /**
   * A zero-size box is a single point, and it still intersects every box
   * whose interior contains that point.
   */
  lemma PointBoxHitsEnclosingBox(p: Vec3, b: Box)
    requires b.min.x < p.x < b.max.x && b.min.y < p.y < b.max.y && b.min.z < p.z < b.max.z
    ensures Intersects(BoxAround(p, Size(0.0, 0.0, 0.0)), b)
  {
  }

  /**
   * A scene object's transform: the live position that colliders and
   * distance tests read every time they are evaluated.
   */
  class Owner {
    var x: real
    var y: real
    var z: real

    constructor (p: Vec3)
      ensures Position() == p
    {
      x, y, z := p.x, p.y, p.z;
    }

    function Position(): Vec3
      reads this
    {
      Vec3(x, y, z)
    }

    /** `position.copy(p)` / `position.set(...)`. */
    method MoveTo(p: Vec3)
      modifies this
      ensures Position() == p
    {
      x, y, z := p.x, p.y, p.z;
    }
  }
}
