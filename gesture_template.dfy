/**
 * GestureTemplate: a named reference curve translated so that it starts at
 * the origin, its polyline length, and the score of a captured gesture
 * against it (compareGesture).
 */
module GestureTemplates {
  import opened Geometry

  /** Translation of every point by the offset o. */
  function TranslateAll(points: seq<Point>, o: Point): seq<Point> {
    seq(|points|, i requires 0 <= i < |points| => Add(points[i], o))
  }

  /** Uniform scaling of every point by k. */
  function ScaleAll(points: seq<Point>, k: real): seq<Point> {
    seq(|points|, i requires 0 <= i < |points| => Scale(points[i], k))
  }

  /** All points of a non-empty curve coincide with its first point. */
  predicate AllEqual(points: seq<Point>) {
    forall i :: 0 <= i < |points| ==> points[i] == points[0]
  }

  /** Two curves of the same length whose consecutive steps are the same vectors. */
  predicate SameSteps(a: seq<Point>, b: seq<Point>) {
    |a| == |b| && forall i :: 0 <= i < |a| - 1 ==> Sub(a[i], a[i + 1]) == Sub(b[i], b[i + 1])
  }

  /**
   * normalizePoints: the curve translated so its first point is the origin.
   * Moving it back by the original first point restores it, and every
   * difference between two of its points is kept.
   */
  function Normalize(points: seq<Point>): (r: seq<Point>)
    requires |points| > 0
    ensures |r| == |points|
    ensures r[0] == Origin
    ensures forall i :: 0 <= i < |r| ==> Add(r[i], points[0]) == points[i]
  {
    seq(|points|, i requires 0 <= i < |points| => Sub(points[i], points[0]))
  }

  /** Normalization preserves every difference between two points of the curve. */
  lemma NormalizeKeepsDifferences(points: seq<Point>, i: nat, j: nat)
    requires i < |points| && j < |points|
    ensures Sub(Normalize(points)[i], Normalize(points)[j]) == Sub(points[i], points[j])
  {
  }

  /** A curve that already starts at the origin is its own normalization. */
  lemma NormalizeFixed(points: seq<Point>)
    requires |points| > 0 && points[0] == Origin
    ensures Normalize(points) == points
  {
  }

  /** Normalization forgets where the curve was drawn. */
  lemma {:induction false} NormalizeTranslate(points: seq<Point>, o: Point)
    requires |points| > 0
    ensures Normalize(TranslateAll(points, o)) == Normalize(points)
  {
    var a, b := Normalize(TranslateAll(points, o)), Normalize(points);
    forall i | 0 <= i < |points| ensures a[i] == b[i] {
      assert a[i] == Sub(Add(points[i], o), Add(points[0], o));
    }
  }

  /** Normalization commutes with scaling. */
  lemma {:induction false} NormalizeScale(points: seq<Point>, k: real)
    requires |points| > 0
    ensures Normalize(ScaleAll(points, k)) == ScaleAll(Normalize(points), k)
  {
    var a, b := Normalize(ScaleAll(points, k)), ScaleAll(Normalize(points), k);
    forall i | 0 <= i < |points| ensures a[i] == b[i] {
      var p, q := points[i], points[0];
      assert a[i] == Point(k * p.x - k * q.x, k * p.y - k * q.y);
      assert b[i] == Point(k * (p.x - q.x), k * (p.y - q.y));
      assert k * p.x - k * q.x == k * (p.x - q.x);
      assert k * p.y - k * q.y == k * (p.y - q.y);
    }
  }

  /** Scaling twice is scaling by the product. */
  lemma {:induction false} ScaleAllTwice(points: seq<Point>, a: real, b: real)
    ensures ScaleAll(ScaleAll(points, a), b) == ScaleAll(points, a * b)
  {
    var l, r := ScaleAll(ScaleAll(points, a), b), ScaleAll(points, a * b);
    forall i | 0 <= i < |points| ensures l[i] == r[i] {
      var p := points[i];
      assert b * (a * p.x) == (a * b) * p.x;
      assert b * (a * p.y) == (a * b) * p.y;
    }
  }

  /** The lengths of the segments between consecutive points, in order. */
  function Segments(sqrt: real -> real, points: seq<Point>): (segs: seq<real>)
    requires IsSqrt(sqrt)
    ensures |segs| == if |points| < 2 then 0 else |points| - 1
    ensures forall i :: 0 <= i < |segs| ==> 0.0 <= segs[i]
  {
    seq(if |points| < 2 then 0 else |points| - 1,
        i requires 0 <= i < |points| - 1 => Dist(sqrt, points[i], points[i + 1]))
  }

  function Sum(xs: seq<real>): real {
    if xs == [] then 0.0 else Sum(xs[..|xs| - 1]) + xs[|xs| - 1]
  }

  lemma {:induction false} SumNonNegative(xs: seq<real>)
    requires forall i :: 0 <= i < |xs| ==> 0.0 <= xs[i]
    ensures 0.0 <= Sum(xs)
  {
    if xs != [] {
      SumNonNegative(xs[..|xs| - 1]);
    }
  }

  /** A sum of non-negative terms is zero exactly when every term is. */
  lemma {:induction false} SumZero(xs: seq<real>)
    requires forall i :: 0 <= i < |xs| ==> 0.0 <= xs[i]
    ensures Sum(xs) == 0.0 <==> forall i :: 0 <= i < |xs| ==> xs[i] == 0.0
  {
    if xs != [] {
      var pre := xs[..|xs| - 1];
      SumZero(pre);
      SumNonNegative(pre);
      if Sum(xs) == 0.0 {
        forall i | 0 <= i < |xs| ensures xs[i] == 0.0 {
          if i < |pre| {
            assert xs[i] == pre[i];
          }
        }
      }
      if forall i :: 0 <= i < |xs| ==> xs[i] == 0.0 {
        assert forall i :: 0 <= i < |pre| ==> pre[i] == xs[i];
      }
    }
  }

  lemma SumAppend(xs: seq<real>, x: real)
    ensures Sum(xs + [x]) == Sum(xs) + x
  {
    assert (xs + [x])[..|xs|] == xs;
  }

  /** A sum of n copies of c is n * c. */
  lemma {:induction false} SumConstant(xs: seq<real>, c: real)
    requires forall i :: 0 <= i < |xs| ==> xs[i] == c
    ensures Sum(xs) == (|xs| as real) * c
  {
    if xs != [] {
      SumConstant(xs[..|xs| - 1], c);
    }
  }

  /** Every term of ys is k times the matching term of xs. */
  predicate Proportional(xs: seq<real>, ys: seq<real>, k: real) {
    |xs| == |ys| && forall i :: 0 <= i < |xs| ==> ys[i] == k * xs[i]
  }

  /** Multiplying every term by k multiplies the sum by k. */
  lemma {:induction false} SumProportional(xs: seq<real>, ys: seq<real>, k: real)
    requires Proportional(xs, ys, k)
    ensures Sum(ys) == k * Sum(xs)
    decreases |xs|
  {
    var n := |xs|;
    if n > 0 {
      assert Proportional(xs[..n - 1], ys[..n - 1], k);
      SumProportional(xs[..n - 1], ys[..n - 1], k);
      Distribute(k, Sum(xs[..n - 1]), xs[n - 1], Sum(ys[..n - 1]), ys[n - 1], Sum(xs), Sum(ys));
    }
  }

  /**
   * The polyline length of a curve: the sum of the distances between
   * consecutive points (curveDistance); zero for fewer than two points.
   */
  function CurveLength(sqrt: real -> real, points: seq<Point>): (d: real)
    requires IsSqrt(sqrt)
    ensures 0.0 <= d
  {
    SumNonNegative(Segments(sqrt, points));
    Sum(Segments(sqrt, points))
  }

  /** Extending a curve by one point adds the length of the new segment. */
  lemma CurveLengthStep(sqrt: real -> real, points: seq<Point>, n: nat)
    requires IsSqrt(sqrt)
    requires 1 <= n < |points|
    ensures CurveLength(sqrt, points[..n + 1]) == CurveLength(sqrt, points[..n]) + Dist(sqrt, points[n - 1], points[n])
  {
    var d := Dist(sqrt, points[n - 1], points[n]);
    assert Segments(sqrt, points[..n + 1]) == Segments(sqrt, points[..n]) + [d];
    SumAppend(Segments(sqrt, points[..n]), d);
  }

  /** curveDistance: accumulates the segment lengths in a loop. */
  method CurveDistance(sqrt: real -> real, points: seq<Point>) returns (distance: real)
    requires IsSqrt(sqrt)
    ensures distance == CurveLength(sqrt, points)
  {
    distance := 0.0;
    var n := if |points| == 0 then 0 else 1;
    while n < |points|
      invariant n <= |points|
      invariant |points| > 0 ==> 1 <= n
      invariant distance == CurveLength(sqrt, points[..n])
    {
      CurveLengthStep(sqrt, points, n);
      distance := distance + Dist(sqrt, points[n - 1], points[n]);
      n := n + 1;
    }
    assert points[..n] == points;
  }

  /** Points linked by equal consecutive points all equal the first. */
  lemma {:induction false} ChainEqual(points: seq<Point>, i: nat)
    requires forall j :: 0 <= j < |points| - 1 ==> points[j] == points[j + 1]
    requires i < |points|
    ensures points[i] == points[0]
  {
    if i > 0 {
      ChainEqual(points, i - 1);
    }
  }

  /** A curve has length zero exactly when all its points coincide. */
  lemma CurveLengthZero(sqrt: real -> real, points: seq<Point>)
    requires IsSqrt(sqrt)
    ensures CurveLength(sqrt, points) == 0.0 <==> AllEqual(points)
  {
    var segs := Segments(sqrt, points);
    SumZero(segs);
    forall j | 0 <= j < |segs| ensures segs[j] == 0.0 <==> points[j] == points[j + 1] {
      DistZero(sqrt, points[j], points[j + 1]);
    }
    if CurveLength(sqrt, points) == 0.0 {
      forall i | 0 <= i < |points| ensures points[i] == points[0] {
        ChainEqual(points, i);
      }
    }
  }

  /** Curves made of the same steps have the same length. */
  lemma CurveLengthSameSteps(sqrt: real -> real, a: seq<Point>, b: seq<Point>)
    requires IsSqrt(sqrt)
    requires SameSteps(a, b)
    ensures CurveLength(sqrt, a) == CurveLength(sqrt, b)
  {
    forall i | 0 <= i < |a| - 1 ensures Dist(sqrt, a[i], a[i + 1]) == Dist(sqrt, b[i], b[i + 1]) {
      DistBySub(sqrt, a[i], a[i + 1], b[i], b[i + 1]);
    }
    assert Segments(sqrt, a) == Segments(sqrt, b);
  }

  /** Normalization keeps the curve length. */
  lemma CurveLengthNormalize(sqrt: real -> real, points: seq<Point>)
    requires IsSqrt(sqrt)
    requires |points| > 0
    ensures CurveLength(sqrt, Normalize(points)) == CurveLength(sqrt, points)
  {
    CurveLengthSameSteps(sqrt, Normalize(points), points);
  }

  /** Scaling a curve by k >= 0 scales each of its segments by k. */
  lemma SegmentScale(sqrt: real -> real, points: seq<Point>, k: real, i: nat)
    requires IsSqrt(sqrt)
    requires 0.0 <= k && i + 1 < |points|
    ensures Segments(sqrt, ScaleAll(points, k))[i] == k * Segments(sqrt, points)[i]
  {
    var s := ScaleAll(points, k);
    assert s[i] == Scale(points[i], k) && s[i + 1] == Scale(points[i + 1], k);
    assert Segments(sqrt, s)[i] == Dist(sqrt, s[i], s[i + 1]);
    DistScale(sqrt, points[i], points[i + 1], k);
  }

  lemma SegmentsScale(sqrt: real -> real, points: seq<Point>, k: real)
    requires IsSqrt(sqrt)
    requires 0.0 <= k
    ensures Proportional(Segments(sqrt, points), Segments(sqrt, ScaleAll(points, k)), k)
  {
    forall i: nat | i + 1 < |points| {
      SegmentScale(sqrt, points, k, i);
    }
  }

  /** Scaling a curve by k >= 0 scales its length by k. */
  lemma CurveLengthScale(sqrt: real -> real, points: seq<Point>, k: real)
    requires IsSqrt(sqrt)
    requires 0.0 <= k
    ensures CurveLength(sqrt, ScaleAll(points, k)) == k * CurveLength(sqrt, points)
  {
    SegmentsScale(sqrt, points, k);
    SumProportional(Segments(sqrt, points), Segments(sqrt, ScaleAll(points, k)), k);
  }

  /** A gesture template: its normalized points, their length and its name. */
  datatype Template = Template(points: seq<Point>, templateDistance: real, name: string)

  /** What GestureTemplate's constructor establishes. */
  ghost predicate ValidTemplate(sqrt: real -> real, t: Template) {
    IsSqrt(sqrt) && |t.points| > 0 && t.points[0] == Origin
    && t.templateDistance == CurveLength(sqrt, t.points)
  }

  /**
   * GestureTemplate.__init__: the template keeps the shape of the raw
   * points (every pairwise difference), starts at the origin, and records
   * the raw curve's length.
   */
  method NewTemplate(sqrt: real -> real, raw: seq<Point>, name: string) returns (t: Template)
    requires IsSqrt(sqrt)
    requires |raw| > 0
    ensures t == Template(Normalize(raw), CurveLength(sqrt, raw), name)
    ensures ValidTemplate(sqrt, t)
  {
    var points := Normalize(raw);
    var distance := CurveDistance(sqrt, points);
    CurveLengthNormalize(sqrt, raw);
    t := Template(points, distance, name);
  }

  /**
   * The template index that gesture index i is compared with: i scaled from
   * [0, gestureLength - 1] onto [0, templateLength - 1] and truncated.
   */
  function SelfIndex(i: nat, templateLength: nat, gestureLength: nat): (k: nat)
    requires templateLength >= 1 && gestureLength >= 2 && i < gestureLength
    ensures k < templateLength
  {
    DivBound(i, templateLength - 1, gestureLength - 1);
    i * (templateLength - 1) / (gestureLength - 1)
  }

  lemma {:induction false} MulMonotone(a: nat, b: nat, c: nat)
    requires a <= b
    ensures a * c <= b * c
  {
    assert b * c == a * c + (b - a) * c;
  }

  lemma {:induction false} MulLess(x: nat, y: nat, c: nat)
    requires c > 0
    ensures x < y <==> x * c < y * c
  {
    if x < y {
      MulMonotone(x + 1, y, c);
      assert (x + 1) * c == x * c + c;
    } else {
      MulMonotone(y, x, c);
    }
  }

  lemma {:induction false} DivMonotone(a: nat, b: nat, c: nat)
    requires a <= b && 0 < c
    ensures a / c <= b / c
  {
    var qa, qb := a / c, b / c;
    assert qa * c <= a;
    assert b < qb * c + c;
    assert (qb + 1) * c == qb * c + c;
    MulLess(qa, qb + 1, c);
  }

  lemma {:induction false} DivExact(q: nat, c: nat)
    requires 0 < c
    ensures q * c / c == q
  {
    var r := q * c / c;
    assert r * c <= q * c < r * c + c;
    assert (r + 1) * c == r * c + c;
    MulLess(q, r, c);
    MulLess(q, r + 1, c);
  }

  lemma {:induction false} DivBound(i: nat, m: nat, c: nat)
    requires 0 < c && i <= c
    ensures i * m / c <= m
  {
    MulMonotone(i, c, m);
    DivMonotone(i * m, c * m, c);
    assert c * m == m * c;
    DivExact(m, c);
  }

  /** The first gesture point maps to the first template point, the last to the last. */
  lemma SelfIndexEnds(templateLength: nat, gestureLength: nat)
    requires templateLength >= 1 && gestureLength >= 2
    ensures SelfIndex(0, templateLength, gestureLength) == 0
    ensures SelfIndex(gestureLength - 1, templateLength, gestureLength) == templateLength - 1
  {
    assert (gestureLength - 1) * (templateLength - 1) == (templateLength - 1) * (gestureLength - 1);
    DivExact(templateLength - 1, gestureLength - 1);
  }

  /** The index map never goes backwards. */
  lemma SelfIndexMonotone(i: nat, j: nat, templateLength: nat, gestureLength: nat)
    requires templateLength >= 1 && gestureLength >= 2 && i <= j < gestureLength
    ensures SelfIndex(i, templateLength, gestureLength) <= SelfIndex(j, templateLength, gestureLength)
  {
    MulMonotone(i, j, templateLength - 1);
    DivMonotone(i * (templateLength - 1), j * (templateLength - 1), gestureLength - 1);
  }

  /** When both curves have the same number of points, index i maps to i. */
  lemma SelfIndexIdentity(i: nat, n: nat)
    requires n >= 2 && i < n
    ensures SelfIndex(i, n, n) == i
  {
    DivExact(i, n - 1);
  }

  /**
   * The sum of the point errors over the first n gesture points, each
   * compared with the template point its index maps to.
   */
  function ErrorSum(templatePoints: seq<Point>, gesture: seq<Point>, n: nat): (e: real)
    requires |templatePoints| >= 1 && |gesture| >= 2 && n <= |gesture|
    ensures 0.0 <= e
  {
    if n == 0 then 0.0
    else
      var k := SelfIndex(n - 1, |templatePoints|, |gesture|);
      ErrorSum(templatePoints, gesture, n - 1) + Error(templatePoints[k], gesture[n - 1])
  }

  /**
   * Every gesture index below n contributes its own error exactly once:
   * replacing point k changes the sum by the change of that one term.
   */
  lemma {:induction false} ErrorSumUpdate(templatePoints: seq<Point>, gesture: seq<Point>, n: nat, k: nat, p: Point)
    requires |templatePoints| >= 1 && |gesture| >= 2 && n <= |gesture| && k < |gesture|
    ensures
      var t := templatePoints[SelfIndex(k, |templatePoints|, |gesture|)];
      ErrorSum(templatePoints, gesture[k := p], n)
        == ErrorSum(templatePoints, gesture, n) + (if k < n then Error(t, p) - Error(t, gesture[k]) else 0.0)
  {
    if n > 0 {
      ErrorSumUpdate(templatePoints, gesture, n - 1, k, p);
    }
  }

  /** A curve compared with itself has no error. */
  lemma {:induction false} ErrorSumSelf(points: seq<Point>, n: nat)
    requires |points| >= 2 && n <= |points|
    ensures ErrorSum(points, points, n) == 0.0
  {
    if n > 0 {
      ErrorSumSelf(points, n - 1);
      SelfIndexIdentity(n - 1, |points|);
      ErrorZero(points[n - 1], points[n - 1]);
    }
  }

  /**
   * The result of compareGesture. numpy's float division yields nan when a
   * curve length is zero; such a comparison is marked degenerate instead.
   */
  datatype Comparison = Scored(error: real) | DegenerateGesture | DegenerateTemplate

  /**
   * The score of a normalized curve g against a template: g scaled by
   * templateDistance / gestureDistance, its point errors summed, divided by
   * templateDistance.
   */
  function ScoreCurve(sqrt: real -> real, t: Template, g: seq<Point>): Comparison
    requires IsSqrt(sqrt)
    requires |g| >= 2 && |t.points| >= 1
  {
    var gestureDistance := CurveLength(sqrt, g);
    if gestureDistance == 0.0 then DegenerateGesture
    else if t.templateDistance == 0.0 then DegenerateTemplate
    else Scored(ErrorSum(t.points, ScaleAll(g, t.templateDistance / gestureDistance), |g|) / t.templateDistance)
  }

  /** What compareGesture computes: the captured points minus the last two, normalized, then scored. */
  function CompareScore(sqrt: real -> real, t: Template, gesture: seq<Point>): Comparison
    requires IsSqrt(sqrt)
    requires |gesture| >= 4 && |t.points| >= 1
  {
    ScoreCurve(sqrt, t, Normalize(gesture[..|gesture| - 2]))
  }

  /** gesturePoints *= scaleFactor, on the array in place. */
  method ScaleInPlace(a: array<Point>, k: real)
    modifies a
    ensures a[..] == ScaleAll(old(a[..]), k)
  {
    var i := 0;
    while i < a.Length
      invariant 0 <= i <= a.Length
      invariant forall j :: 0 <= j < i ==> a[j] == Scale(old(a[j]), k)
      invariant forall j :: i <= j < a.Length ==> a[j] == old(a[j])
    {
      a[i] := Scale(a[i], k);
      i := i + 1;
    }
  }

  /** np.array(points, dtype = float): a fresh array holding the points. */
  method ToArray(points: seq<Point>) returns (a: array<Point>)
    ensures fresh(a) && a[..] == points
  {
    a := new Point[|points|];
    var i := 0;
    while i < |points|
      invariant 0 <= i <= |points| && a.Length == |points|
      invariant forall j :: 0 <= j < i ==> a[j] == points[j]
    {
      a[i] := points[i];
      i := i + 1;
    }
  }

  /** The error-summing loop of compareGesture, over every gesture index from 0. */
  method TotalError(templatePoints: seq<Point>, gesture: seq<Point>) returns (totalError: real)
    requires |templatePoints| >= 1 && |gesture| >= 2
    ensures totalError == ErrorSum(templatePoints, gesture, |gesture|)
  {
    totalError := 0.0;
    var i := 0;
    while i < |gesture|
      invariant 0 <= i <= |gesture|
      invariant totalError == ErrorSum(templatePoints, gesture, i)
    {
      var selfIndex := SelfIndex(i, |templatePoints|, |gesture|);
      totalError := totalError + Error(templatePoints[selfIndex], gesture[i]);
      i := i + 1;
    }
  }

  /** GestureTemplate.compareGesture. */
  method CompareGesture(sqrt: real -> real, t: Template, gesture: seq<Point>) returns (c: Comparison)
    requires IsSqrt(sqrt)
    requires |gesture| >= 4 && |t.points| >= 1
    ensures c == CompareScore(sqrt, t, gesture)
  {
    var trimmed := gesture[..|gesture| - 2];
    var g := Normalize(trimmed);
    var gestureDistance := CurveDistance(sqrt, g);
    if gestureDistance == 0.0 {
      return DegenerateGesture;
    }
    if t.templateDistance == 0.0 {
      return DegenerateTemplate;
    }
    var scaleFactor := t.templateDistance / gestureDistance;
    var points := ToArray(g);
    ScaleInPlace(points, scaleFactor);
    var totalError := TotalError(t.points, points[..]);
    c := Scored(totalError / t.templateDistance);
  }

  /** The last two captured points never influence the score. */
  lemma ScoreIgnoresLastTwo(sqrt: real -> real, t: Template, a: seq<Point>, b: seq<Point>)
    requires IsSqrt(sqrt)
    requires |a| >= 4 && |b| >= 4 && |t.points| >= 1
    requires a[..|a| - 2] == b[..|b| - 2]
    ensures CompareScore(sqrt, t, a) == CompareScore(sqrt, t, b)
  {
  }

  lemma DivNonNegative(a: real, b: real)
    requires 0.0 <= a && 0.0 < b
    ensures 0.0 <= a / b
  {
  }

  /** Against a valid template, a score is never negative. */
  lemma ScoreNonNegative(sqrt: real -> real, t: Template, gesture: seq<Point>)
    requires ValidTemplate(sqrt, t) && |gesture| >= 4
    ensures CompareScore(sqrt, t, gesture).Scored? ==> 0.0 <= CompareScore(sqrt, t, gesture).error
  {
    var g := Normalize(gesture[..|gesture| - 2]);
    var gd := CurveLength(sqrt, g);
    if gd != 0.0 && t.templateDistance != 0.0 {
      var e := ErrorSum(t.points, ScaleAll(g, t.templateDistance / gd), |g|);
      DivNonNegative(e, t.templateDistance);
    }
  }

  /**
   * The comparison is degenerate for the gesture exactly when the scored
   * points all coincide, and for the template exactly when the gesture is
   * not degenerate and every template point is the origin.
   */
  lemma {:induction false} ScoreDegenerate(sqrt: real -> real, t: Template, gesture: seq<Point>)
    requires ValidTemplate(sqrt, t) && |gesture| >= 4
    ensures CompareScore(sqrt, t, gesture).DegenerateGesture? <==> AllEqual(gesture[..|gesture| - 2])
    ensures CompareScore(sqrt, t, gesture).DegenerateTemplate?
      <==> !AllEqual(gesture[..|gesture| - 2]) && forall i :: 0 <= i < |t.points| ==> t.points[i] == Origin
  {
    var trimmed := gesture[..|gesture| - 2];
    CurveLengthNormalize(sqrt, trimmed);
    CurveLengthZero(sqrt, trimmed);
    CurveLengthZero(sqrt, t.points);
  }

  /** Moving the whole gesture leaves its score unchanged. */
  lemma ScoreTranslationInvariant(sqrt: real -> real, t: Template, gesture: seq<Point>, o: Point)
    requires IsSqrt(sqrt)
    requires |gesture| >= 4 && |t.points| >= 1
    ensures CompareScore(sqrt, t, TranslateAll(gesture, o)) == CompareScore(sqrt, t, gesture)
  {
    var n := |gesture|;
    assert TranslateAll(gesture, o)[..n - 2] == TranslateAll(gesture[..n - 2], o);
    NormalizeTranslate(gesture[..n - 2], o);
  }

  lemma Distribute(k: real, l: real, d: real, kl: real, kd: real, total: real, scaled: real)
    requires kl == k * l && kd == k * d
    requires total == l + d && scaled == kl + kd
    ensures scaled == k * total
  {
  }

  lemma ProductNonZero(a: real, b: real)
    requires a != 0.0 && b != 0.0
    ensures a * b != 0.0
  {
    assert (a * b) / a == b;
  }

  lemma RatioCancel(td: real, gd: real, k: real, scaledLength: real)
    requires gd != 0.0 && k != 0.0 && scaledLength == k * gd
    ensures k * (td / scaledLength) == td / gd
  {
    ProductNonZero(k, gd);
  }

  /** Rescaling a scaled curve to a fixed length undoes the first scaling. */
  lemma RescaleCancel(g: seq<Point>, k: real, td: real, gd: real, scaledLength: real)
    requires gd != 0.0 && k != 0.0 && scaledLength == k * gd
    ensures ScaleAll(ScaleAll(g, k), td / scaledLength) == ScaleAll(g, td / gd)
  {
    ProductNonZero(k, gd);
    var f := td / scaledLength;
    ScaleAllTwice(g, k, f);
    RatioCancel(td, gd, k, scaledLength);
    var m := k * f;
    assert m == td / gd;
    assert ScaleAll(g, m) == ScaleAll(g, td / gd);
  }

  lemma DivSelf(x: real)
    requires x != 0.0
    ensures x / x == 1.0
  {
  }

  /** Scoring a normalized curve does not depend on its size (k > 0). */
  lemma {:induction false} ScoreCurveScale(sqrt: real -> real, t: Template, g: seq<Point>, k: real)
    requires IsSqrt(sqrt)
    requires |g| >= 2 && |t.points| >= 1
    requires 0.0 < k
    ensures ScoreCurve(sqrt, t, ScaleAll(g, k)) == ScoreCurve(sqrt, t, g)
  {
    CurveLengthScale(sqrt, g, k);
    var gd := CurveLength(sqrt, g);
    var gd' := CurveLength(sqrt, ScaleAll(g, k));
    if gd != 0.0 {
      ProductNonZero(k, gd);
      RescaleCancel(g, k, t.templateDistance, gd, gd');
    }
  }

  /** Drawing the gesture larger or smaller (k > 0) leaves its score unchanged. */
  lemma ScoreScaleInvariant(sqrt: real -> real, t: Template, gesture: seq<Point>, k: real)
    requires IsSqrt(sqrt)
    requires |gesture| >= 4 && |t.points| >= 1
    requires 0.0 < k
    ensures CompareScore(sqrt, t, ScaleAll(gesture, k)) == CompareScore(sqrt, t, gesture)
  {
    var n := |gesture|;
    var trimmed := gesture[..n - 2];
    assert ScaleAll(gesture, k)[..n - 2] == ScaleAll(trimmed, k);
    NormalizeScale(trimmed, k);
    ScoreCurveScale(sqrt, t, Normalize(trimmed), k);
  }

  /** Scaling by one changes nothing. */
  lemma ScaleAllOne(points: seq<Point>)
    ensures ScaleAll(points, 1.0) == points
  {
  }

  /** A valid template scored against its own points matches with error zero. */
  lemma {:induction false} ScoreCurveSelf(sqrt: real -> real, t: Template)
    requires ValidTemplate(sqrt, t) && t.templateDistance > 0.0
    ensures |t.points| >= 2
    ensures ScoreCurve(sqrt, t, t.points) == Scored(0.0)
  {
    CurveLengthZero(sqrt, t.points);
    DivSelf(t.templateDistance);
    ScaleAllOne(t.points);
    ErrorSumSelf(t.points, |t.points|);
  }

  /**
   * A gesture that retraces the template's own points, followed by the two
   * points that are trimmed, matches it with error zero.
   */
  lemma SelfMatch(sqrt: real -> real, t: Template, a: Point, b: Point)
    requires ValidTemplate(sqrt, t) && t.templateDistance > 0.0
    ensures CompareScore(sqrt, t, t.points + [a, b]) == Scored(0.0)
  {
    var gesture := t.points + [a, b];
    ScoreCurveSelf(sqrt, t);
    assert gesture[..|gesture| - 2] == t.points;
    NormalizeFixed(t.points);
  }

  /**
   * The same shape drawn anywhere and at any positive size, followed by the
   * two trimmed points, matches the template with error zero.
   */
  lemma SimilarCopyMatches(sqrt: real -> real, t: Template, a: Point, b: Point, k: real, o: Point)
    requires ValidTemplate(sqrt, t) && t.templateDistance > 0.0
    requires 0.0 < k
    ensures CompareScore(sqrt, t, TranslateAll(ScaleAll(t.points + [a, b], k), o)) == Scored(0.0)
  {
    var raw := t.points + [a, b];
    ScoreCurveSelf(sqrt, t);
    ScoreTranslationInvariant(sqrt, t, ScaleAll(raw, k), o);
    ScoreScaleInvariant(sqrt, t, raw, k);
    SelfMatch(sqrt, t, a, b);
  }
}
