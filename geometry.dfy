/**
 * Points of the plane with exact real coordinates, the squared point error
 * used to score gestures, and the Euclidean distance between two points.
 *
 * The source takes square roots with Python's `** 0.5`. Dafny has no square
 * root on `real`, so every member that needs one takes the root as a
 * parameter `sqrt`, constrained by `IsSqrt` to return the non-negative root.
 */
module Geometry {

  datatype Point = Point(x: real, y: real)

  const Origin: Point := Point(0.0, 0.0)

  /** Component-wise difference p - q (numpy's broadcast subtraction on one row). */
  function Sub(p: Point, q: Point): Point {
    Point(p.x - q.x, p.y - q.y)
  }

  /** Component-wise sum p + q: translation of p by the offset q. */
  function Add(p: Point, q: Point): Point {
    Point(p.x + q.x, p.y + q.y)
  }

  /** Uniform scaling of p by k (numpy's `points *= k` on one row). */
  function Scale(p: Point, k: real): Point {
    Point(k * p.x, k * p.y)
  }

  /** The squared error between two points (GestureTemplate.error). */
  function Error(p: Point, q: Point): (e: real)
    ensures 0.0 <= e
  {
    (p.x - q.x) * (p.x - q.x) + (p.y - q.y) * (p.y - q.y)
  }

  /** Non-negative reals with equal squares are equal. */
  lemma {:induction false} SquareInjective(a: real, b: real)
    requires 0.0 <= a && 0.0 <= b
    requires a * a == b * b
    ensures a == b
  {
    if a != b {
      assert (a - b) * (a + b) == 0.0;
      if a < b {
        assert (b - a) * (a + b) == -((a - b) * (a + b));
        MulPos(b - a, a + b);
      } else {
        MulPos(a - b, a + b);
      }
    }
  }

  /** The product of two positive reals is positive. */
  lemma MulPos(x: real, y: real)
    requires 0.0 < x && 0.0 < y
    ensures 0.0 < x * y
  {
  }

  lemma {:induction false} SquareZero(v: real)
    requires v * v == 0.0
    ensures v == 0.0
  {
    if v < 0.0 {
      assert (-v) * (-v) == v * v;
      SquareInjective(-v, 0.0);
    } else {
      SquareInjective(v, 0.0);
    }
  }

  lemma {:induction false} SumOfSquaresZero(a: real, b: real)
    requires a * a + b * b == 0.0
    ensures a == 0.0 && b == 0.0
  {
    assert a * a >= 0.0;
    assert b * b >= 0.0;
    SquareZero(a);
    SquareZero(b);
  }

  /** The error between two points is zero exactly when they coincide. */
  lemma {:induction false} ErrorZero(p: Point, q: Point)
    ensures Error(p, q) == 0.0 <==> p == q
  {
    if Error(p, q) == 0.0 {
      SumOfSquaresZero(p.x - q.x, p.y - q.y);
    }
  }

  /** The error of two points depends only on their difference. */
  lemma ErrorBySub(p: Point, q: Point, p': Point, q': Point)
    requires Sub(p, q) == Sub(p', q')
    ensures Error(p, q) == Error(p', q')
  {
    assert p.x - q.x == p'.x - q'.x && p.y - q.y == p'.y - q'.y;
  }

  lemma ErrorSymmetric(p: Point, q: Point)
    ensures Error(p, q) == Error(q, p)
  {
  }

  /** Translating both points by the same offset leaves their error unchanged. */
  lemma ErrorTranslation(p: Point, q: Point, o: Point)
    ensures Error(Add(p, o), Add(q, o)) == Error(p, q)
  {
  }

  /** Scaling both points by k multiplies their error by k * k. */
  lemma {:induction false} ErrorScale(p: Point, q: Point, k: real)
    ensures Error(Scale(p, k), Scale(q, k)) == k * k * Error(p, q)
  {
    var dx, dy := p.x - q.x, p.y - q.y;
    assert k * p.x - k * q.x == k * dx;
    assert k * p.y - k * q.y == k * dy;
    assert (k * dx) * (k * dx) == k * k * (dx * dx);
    assert (k * dy) * (k * dy) == k * k * (dy * dy);
  }

  function Square(x: real): real {
    x * x
  }

  /**
   * `sqrt` returns the non-negative square root of every non-negative real.
   * The second fact is only instantiated where a proof mentions the square
   * of a root, which keeps the nonlinear facts out of unrelated proofs.
   */
  ghost predicate IsSqrt(sqrt: real -> real) {
    (forall v: real :: 0.0 <= v ==> 0.0 <= sqrt(v))
    && (forall v: real {:trigger Square(sqrt(v))} :: 0.0 <= v ==> Square(sqrt(v)) == v)
  }

  /**
   * Euclidean distance between two points: the root of their squared error,
   * as curveDistance computes each segment.
   */
  function Dist(sqrt: real -> real, p: Point, q: Point): (d: real)
    requires IsSqrt(sqrt)
    ensures 0.0 <= d
  {
    sqrt(Error(p, q))
  }

  /** The root of one is one. */
  lemma SqrtOne(sqrt: real -> real)
    requires IsSqrt(sqrt)
    ensures sqrt(1.0) == 1.0
  {
    assert Square(sqrt(1.0)) == 1.0;
    SquareInjective(sqrt(1.0), 1.0);
  }

  /** The distance squared is the error. */
  lemma DistSquare(sqrt: real -> real, p: Point, q: Point)
    requires IsSqrt(sqrt)
    ensures Dist(sqrt, p, q) * Dist(sqrt, p, q) == Error(p, q)
  {
    assert Square(sqrt(Error(p, q))) == Error(p, q);
  }

  /** The distance between two points is zero exactly when they coincide. */
  lemma {:induction false} DistZero(sqrt: real -> real, p: Point, q: Point)
    requires IsSqrt(sqrt)
    ensures Dist(sqrt, p, q) == 0.0 <==> p == q
  {
    var d := Dist(sqrt, p, q);
    DistSquare(sqrt, p, q);
    ErrorZero(p, q);
    if d == 0.0 {
      assert Error(p, q) == 0.0 * 0.0;
    }
    if p == q {
      SquareZero(d);
    }
  }

  /** The distance of two points depends only on their difference. */
  lemma DistBySub(sqrt: real -> real, p: Point, q: Point, p': Point, q': Point)
    requires IsSqrt(sqrt)
    requires Sub(p, q) == Sub(p', q')
    ensures Dist(sqrt, p, q) == Dist(sqrt, p', q')
  {
    ErrorBySub(p, q, p', q');
  }

  lemma DistSymmetric(sqrt: real -> real, p: Point, q: Point)
    requires IsSqrt(sqrt)
    ensures Dist(sqrt, p, q) == Dist(sqrt, q, p)
  {
    ErrorSymmetric(p, q);
  }

  /** Distance is invariant under translation. */
  lemma DistTranslation(sqrt: real -> real, p: Point, q: Point, o: Point)
    requires IsSqrt(sqrt)
    ensures Dist(sqrt, Add(p, o), Add(q, o)) == Dist(sqrt, p, q)
  {
    ErrorTranslation(p, q, o);
  }

  /** Scaling by a non-negative k scales distance by k. */
  lemma {:induction false} DistScale(sqrt: real -> real, p: Point, q: Point, k: real)
    requires IsSqrt(sqrt)
    requires 0.0 <= k
    ensures Dist(sqrt, Scale(p, k), Scale(q, k)) == k * Dist(sqrt, p, q)
  {
    var d, d' := Dist(sqrt, p, q), Dist(sqrt, Scale(p, k), Scale(q, k));
    DistSquare(sqrt, p, q);
    DistSquare(sqrt, Scale(p, k), Scale(q, k));
    ErrorScale(p, q, k);
    assert (k * d) * (k * d) == k * k * (d * d);
    assert 0.0 <= k * d;
    SquareInjective(d', k * d);
  }
}
