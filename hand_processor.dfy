/**
 * HandProcessor's motion segmenter: each frame appends the hand's centroid
 * to the history, decides from the three samples before the newest whether
 * the hand is stationary, records the centroids of a movement that starts
 * after a stationary spell, and classifies the recording when the hand
 * comes to rest again.
 */
module HandProcessing {
  import opened Geometry
  import opened GestureTemplates
  import opened Classifier

  /** A hand centroid in whole pixels, as the int() of the image moments gives it. */
  datatype Centroid = Centroid(x: int, y: int)

  function ToPoint(c: Centroid): Point {
    Point(c.x as real, c.y as real)
  }

  /** The centroids as float coordinates, as compareGesture converts them. */
  function ToPoints(cs: seq<Centroid>): (ps: seq<Point>)
    ensures |ps| == |cs|
  {
    seq(|cs|, i requires 0 <= i < |cs| => ToPoint(cs[i]))
  }

  const CameraWidth: int := 1920
  const CameraHeight: int := 1080
  /** Gestures are possible once the history holds more than this many centroids. */
  const MinHistory: int := 10
  /** Number of samples the stationary test looks at. */
  const SearchLength: int := 3

  function Min(a: int, b: int): int {
    if a <= b then a else b
  }

  /** A sample deviates when its squared distance from the mean exceeds 0.04 * min(width, height). */
  const StationaryThreshold: real := 0.04 * (Min(CameraWidth, CameraHeight) as real)

  lemma StationaryThresholdValue()
    ensures StationaryThreshold == 43.2
  {
  }

  /** handCenterPositions[-4:-1]: the three samples before the newest. */
  function Window(h: seq<Centroid>): (w: seq<Centroid>)
    requires |h| >= SearchLength + 1
    ensures |w| == SearchLength
    ensures forall k :: 0 <= k < |w| ==> w[k] == h[|h| - 1 - SearchLength + k]
  {
    h[|h| - 1 - SearchLength..|h| - 1]
  }

  function SumX(w: seq<Centroid>): int {
    if w == [] then 0 else SumX(w[..|w| - 1]) + w[|w| - 1].x
  }

  function SumY(w: seq<Centroid>): int {
    if w == [] then 0 else SumY(w[..|w| - 1]) + w[|w| - 1].y
  }

  /** np.average of the x and of the y coordinates. */
  function Mean(w: seq<Centroid>): Point
    requires |w| > 0
  {
    Point(SumX(w) as real / |w| as real, SumY(w) as real / |w| as real)
  }

  predicate Deviates(c: Centroid, mean: Point) {
    Error(ToPoint(c), mean) > StationaryThreshold
  }

  /** The hand is moving when some sample of the window deviates from the window's mean. */
  predicate Moving(h: seq<Centroid>)
    requires |h| >= SearchLength + 1
  {
    var w := Window(h);
    exists k :: 0 <= k < |w| && Deviates(w[k], Mean(w))
  }

  /** The newest centroid never takes part in the stationary test. */
  lemma MovingIgnoresNewest(h: seq<Centroid>, c: Centroid, c': Centroid)
    requires |h| >= SearchLength
    ensures Moving(h + [c]) == Moving(h + [c'])
  {
    assert Window(h + [c]) == Window(h + [c']);
  }

  /** Coordinate sums of n copies of one centroid. */
  lemma {:induction false} SumSame(w: seq<Centroid>, c: Centroid)
    requires forall k :: 0 <= k < |w| ==> w[k] == c
    ensures SumX(w) == |w| * c.x && SumY(w) == |w| * c.y
  {
    if w != [] {
      SumSame(w[..|w| - 1], c);
    }
  }

  /** Three coinciding samples are stationary. */
  lemma SteadyIsStill(h: seq<Centroid>)
    requires |h| >= SearchLength + 1
    requires forall k :: 0 <= k < SearchLength ==> Window(h)[k] == Window(h)[0]
    ensures !Moving(h)
  {
    var w := Window(h);
    var c := w[0];
    SumSame(w, c);
    assert Mean(w) == ToPoint(c);
    ErrorZero(ToPoint(c), Mean(w));
  }

  function TranslateCentroids(h: seq<Centroid>, dx: int, dy: int): (r: seq<Centroid>)
    ensures |r| == |h|
  {
    seq(|h|, i requires 0 <= i < |h| => Centroid(h[i].x + dx, h[i].y + dy))
  }

  lemma {:induction false} SumTranslate(w: seq<Centroid>, dx: int, dy: int)
    ensures SumX(TranslateCentroids(w, dx, dy)) == SumX(w) + |w| * dx
    ensures SumY(TranslateCentroids(w, dx, dy)) == SumY(w) + |w| * dy
  {
    if w != [] {
      var n := |w|;
      SumTranslate(w[..n - 1], dx, dy);
      assert TranslateCentroids(w, dx, dy)[..n - 1] == TranslateCentroids(w[..n - 1], dx, dy);
    }
  }

  lemma ShiftedMean(s: int, n: int, d: int)
    requires n > 0
    ensures (s + n * d) as real / n as real == s as real / n as real + d as real
  {
  }

  /** The mean of a moved window is the moved mean. */
  lemma MeanTranslate(w: seq<Centroid>, dx: int, dy: int)
    requires |w| > 0
    ensures Mean(TranslateCentroids(w, dx, dy)) == Add(Mean(w), Point(dx as real, dy as real))
  {
    SumTranslate(w, dx, dy);
    ShiftedMean(SumX(w), |w|, dx);
    ShiftedMean(SumY(w), |w|, dy);
  }

  /** Moving the whole history by a pixel offset does not change the stationary test. */
  lemma MovingTranslationInvariant(h: seq<Centroid>, dx: int, dy: int)
    requires |h| >= SearchLength + 1
    ensures Moving(TranslateCentroids(h, dx, dy)) == Moving(h)
  {
    var w, w' := Window(h), Window(TranslateCentroids(h, dx, dy));
    var o := Point(dx as real, dy as real);
    assert w' == TranslateCentroids(w, dx, dy);
    MeanTranslate(w, dx, dy);
    forall k | 0 <= k < |w| ensures Deviates(w'[k], Mean(w')) == Deviates(w[k], Mean(w)) {
      assert ToPoint(w'[k]) == Add(ToPoint(w[k]), o);
      ErrorTranslation(ToPoint(w[k]), Mean(w), o);
    }
  }

  /** The stationary and record flags. */
  datatype Mode = Mode(stationary: bool, record: bool)

  /**
   * detemineStationary's update of the flags once gestures are possible:
   * stationary becomes the negation of moving; recording starts exactly on
   * a moving frame that follows a stationary one, and stops exactly on a
   * still frame that follows a non-stationary one; record excludes
   * stationary whenever it did before.
   */
  function StationaryUpdate(m: Mode, moving: bool): (m': Mode)
    ensures m'.stationary == !moving
    ensures !m.record && m'.record <==> !m.record && moving && m.stationary
    ensures m.record && !m'.record <==> m.record && !moving && !m.stationary
    ensures (m.record ==> !m.stationary) ==> (m'.record ==> !m'.stationary)
  {
    if moving then Mode(false, m.stationary || m.record)
    else Mode(true, m.stationary && m.record)
  }

  /** A frame's effect on the flags: nothing changes until the history is long enough. */
  function NextMode(m: Mode, h: seq<Centroid>): Mode {
    if |h| > MinHistory then StationaryUpdate(m, Moving(h)) else m
  }

  /** What the source does when recording ends: either nothing or the classifier's index. */
  datatype Outcome = NoGesture | Classified(index: int)

  /** Each template curve of initGestureTemplates has this many points. */
  const TemplateSize: nat := 100

  const RightToLeftName: string := "Horizontal Line Right to Left"
  const LeftToRightName: string := "Horizontal Line Left to Right"
  const CircleName: string := "CCW Circle"

  /** The points (-x, 0) when leftward, else (x, 0), for x in 0 .. n - 1. */
  function Line(leftward: bool, n: nat): (r: seq<Point>)
    ensures |r| == n
  {
    seq(n, i => Point(if leftward then -(i as real) else i as real, 0.0))
  }

  /** Each segment of a line has length one. */
  lemma LineSegment(sqrt: real -> real, leftward: bool, n: nat, i: nat)
    requires IsSqrt(sqrt)
    requires i + 1 < n
    ensures Dist(sqrt, Line(leftward, n)[i], Line(leftward, n)[i + 1]) == 1.0
  {
    var l := Line(leftward, n);
    var dx := l[i].x - l[i + 1].x;
    assert dx == 1.0 || dx == -1.0;
    assert Error(l[i], l[i + 1]) == dx * dx + 0.0 * 0.0;
    SqrtOne(sqrt);
  }

  /** A line of n points has length n - 1. */
  lemma LineLength(sqrt: real -> real, leftward: bool, n: nat)
    requires IsSqrt(sqrt)
    requires n >= 1
    ensures CurveLength(sqrt, Line(leftward, n)) == (n - 1) as real
  {
    var segs := Segments(sqrt, Line(leftward, n));
    forall i | 0 <= i < |segs| ensures segs[i] == 1.0 {
      LineSegment(sqrt, leftward, n, i);
    }
    SumConstant(segs, 1.0);
  }

  /** t is the template GestureTemplate builds from the n-point horizontal line. */
  ghost predicate IsLineTemplate(sqrt: real -> real, t: Template, leftward: bool, n: nat, name: string) {
    ValidTemplate(sqrt, t) && t.points == Line(leftward, n) && t.templateDistance == (n - 1) as real && t.name == name
  }

  /** t is the template GestureTemplate builds from the circle's points. */
  ghost predicate IsCircleTemplate(sqrt: real -> real, t: Template, circlePoints: seq<Point>) {
    ValidTemplate(sqrt, t) && |circlePoints| > 0
    && t == Template(Normalize(circlePoints), CurveLength(sqrt, circlePoints), CircleName)
  }

  /**
   * The templates initGestureTemplates builds, in order: the two horizontal
   * lines of 100 points (length 99) and the circle.
   */
  ghost predicate InitialTemplates(sqrt: real -> real, circlePoints: seq<Point>, templates: seq<Template>) {
    |templates| == 3
    && IsLineTemplate(sqrt, templates[0], true, TemplateSize, RightToLeftName)
    && IsLineTemplate(sqrt, templates[1], false, TemplateSize, LeftToRightName)
    && IsCircleTemplate(sqrt, templates[2], circlePoints)
  }

  /** GestureTemplate over a horizontal line of n points. */
  method NewLineTemplate(sqrt: real -> real, leftward: bool, n: nat, name: string) returns (t: Template)
    requires IsSqrt(sqrt) && n >= 1
    ensures IsLineTemplate(sqrt, t, leftward, n, name)
  {
    t := NewTemplate(sqrt, Line(leftward, n), name);
    LineNormalized(leftward, n);
    LineLength(sqrt, leftward, n);
  }

  /**
   * initGestureTemplates. The circle's 100 points come from cos, sin and
   * linspace, which are a parameter here.
   */
  method InitGestureTemplates(sqrt: real -> real, circlePoints: seq<Point>) returns (templates: seq<Template>)
    requires IsSqrt(sqrt) && |circlePoints| == TemplateSize
    ensures InitialTemplates(sqrt, circlePoints, templates)
  {
    var rightToLeft := NewLineTemplate(sqrt, true, TemplateSize, RightToLeftName);
    var leftToRight := NewLineTemplate(sqrt, false, TemplateSize, LeftToRightName);
    var circle := NewTemplate(sqrt, circlePoints, CircleName);
    assert IsCircleTemplate(sqrt, circle, circlePoints);
    templates := [rightToLeft, leftToRight, circle];
  }

  /** A line template keeps its points: the line already starts at the origin. */
  lemma LineNormalized(leftward: bool, n: nat)
    requires n >= 1
    ensures Normalize(Line(leftward, n)) == Line(leftward, n)
  {
    NormalizeFixed(Line(leftward, n));
  }

  /** gesturePoints is the run of the latest |gesturePoints| centroids of h. */
  predicate IsSuffix(gesturePoints: seq<Centroid>, h: seq<Centroid>) {
    0 < |gesturePoints| <= |h| && gesturePoints == h[|h| - |gesturePoints|..]
  }

  class HandProcessor {
    const sqrt: real -> real
    const gestureTemplates: seq<Template>
    var handCenterPositions: seq<Centroid>
    var canDoGestures: bool
    var stationary: bool
    var record: bool
    var gesturePoints: seq<Centroid>

    /** What holds between frames and in the middle of one. */
    ghost predicate Consistent()
      reads this
    {
      IsSqrt(sqrt)
      && (forall i :: 0 <= i < |gestureTemplates| ==> ValidTemplate(sqrt, gestureTemplates[i]))
      && canDoGestures == (|handCenterPositions| > MinHistory)
      && (!canDoGestures ==> !stationary && !record)
      && (record ==> !stationary)
      && (!record ==> gesturePoints == [])
    }

    /** Between frames: a recording is the latest run of centroids. */
    ghost predicate Valid()
      reads this
    {
      Consistent() && (record ==> IsSuffix(gesturePoints, handCenterPositions))
    }

    /** After the newest centroid is appended and before the gesture logic runs. */
    ghost predicate Appended()
      reads this
    {
      Consistent() && |handCenterPositions| > 0
      && (record ==> IsSuffix(gesturePoints, handCenterPositions[..|handCenterPositions| - 1]))
    }

    /** The camera-independent part of __init__, with canDoGestures false until the first frame. */
    constructor (sqrt: real -> real, circlePoints: seq<Point>)
      requires IsSqrt(sqrt) && |circlePoints| == TemplateSize
      ensures Valid()
      ensures this.sqrt == sqrt && InitialTemplates(sqrt, circlePoints, gestureTemplates)
      ensures handCenterPositions == [] && gesturePoints == []
      ensures !canDoGestures && !stationary && !record
    {
      this.sqrt := sqrt;
      var templates := InitGestureTemplates(sqrt, circlePoints);
      gestureTemplates := templates;
      handCenterPositions := [];
      canDoGestures := false;
      stationary := false;
      record := false;
      gesturePoints := [];
    }

    /** The end of findHandContour: append the centroid and decide whether gestures are possible. */
    method AddCentroid(c: Centroid)
      requires Valid()
      modifies this
      ensures Appended()
      ensures handCenterPositions == old(handCenterPositions) + [c]
      ensures canDoGestures == (|handCenterPositions| > MinHistory)
      ensures stationary == old(stationary) && record == old(record)
      ensures gesturePoints == old(gesturePoints)
    {
      handCenterPositions := handCenterPositions + [c];
      if |handCenterPositions| > MinHistory {
        canDoGestures := true;
      } else {
        canDoGestures := false;
      }
      assert handCenterPositions[..|handCenterPositions| - 1] == old(handCenterPositions);
    }

    /** detemineStationary: test the window and update the flags. */
    method DetermineStationary()
      requires canDoGestures == (|handCenterPositions| > MinHistory)
      modifies this
      ensures Mode(stationary, record) == NextMode(old(Mode(stationary, record)), handCenterPositions)
      ensures handCenterPositions == old(handCenterPositions) && canDoGestures == old(canDoGestures)
      ensures gesturePoints == old(gesturePoints)
    {
      if canDoGestures {
        var w := Window(handCenterPositions);
        var mean := Mean(w);
        var k := 0;
        while k < |w|
          invariant 0 <= k <= |w|
          invariant forall j :: 0 <= j < k ==> !Deviates(w[j], mean)
        {
          var p := ToPoint(w[k]);
          var deviation := Error(p, mean);
          if deviation > StationaryThreshold {
            if stationary {
              record := true;
            }
            stationary := false;
            return;
          }
          k := k + 1;
        }
        if !stationary {
          record := false;
        }
        stationary := true;
      }
    }

    /**
     * determineIfGesture: update the flags, buffer the newest centroid while
     * recording, and classify the buffer when recording stops with more than
     * five centroids in it.
     */
    method DetermineIfGesture() returns (outcome: Outcome)
      requires Appended()
      modifies this
      ensures Valid()
      ensures handCenterPositions == old(handCenterPositions) && canDoGestures == old(canDoGestures)
      ensures Mode(stationary, record) == NextMode(old(Mode(stationary, record)), handCenterPositions)
      ensures gesturePoints == if record then old(gesturePoints) + [handCenterPositions[|handCenterPositions| - 1]] else []
      ensures outcome.Classified? <==> old(record) && !record && |old(gesturePoints)| > 5
      ensures outcome.Classified? ==>
        IsBestMatch(Scores(sqrt, gestureTemplates, ToPoints(old(gesturePoints))), outcome.index)
    {
      var prevRecordState := record;
      DetermineStationary();
      outcome := NoGesture;
      if record {
        gesturePoints := gesturePoints + [handCenterPositions[|handCenterPositions| - 1]];
      } else if prevRecordState && !record {
        if |gesturePoints| > 5 {
          var index := ClassifyGesture(sqrt, gestureTemplates, ToPoints(gesturePoints));
          outcome := Classified(index);
        }
        gesturePoints := [];
      }
    }

    /**
     * One frame of the process loop, from the hand's centroid on: append it,
     * then run the gesture logic.
     */
    method Step(c: Centroid) returns (outcome: Outcome)
      requires Valid()
      modifies this
      ensures Valid()
      ensures handCenterPositions == old(handCenterPositions) + [c]
      ensures canDoGestures == (|handCenterPositions| > MinHistory)
      ensures Mode(stationary, record) == NextMode(old(Mode(stationary, record)), handCenterPositions)
      ensures gesturePoints == if record then old(gesturePoints) + [c] else []
      ensures outcome.Classified? <==> old(record) && !record && |old(gesturePoints)| > 5
      ensures outcome.Classified? ==>
        IsBestMatch(Scores(sqrt, gestureTemplates, ToPoints(old(gesturePoints))), outcome.index)
    {
      AddCentroid(c);
      outcome := DetermineIfGesture();
    }
  }
}
