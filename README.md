# Hand-gesture recognition core, modelled in Dafny

This project models the gesture logic of `version2.py`, a webcam hand-gesture recogniser.
Each camera frame gives the centroid of the hand. Its core has two parts:

- **GestureTemplate** (`geometry.dfy`, `gesture_template.dfy`). A template is a named point
  curve, translated so that it starts at the origin, together with its polyline length.
  `compareGesture` scores a captured gesture against a template in these steps:
  1. drop the last two captured points;
  2. translate the rest to the origin;
  3. scale them by the ratio of the template's length to the gesture's length;
  4. map every gesture index `i` (from 0) to the template index `int(i*(T-1)/(G-1))`;
  5. sum the squared point errors;
  6. divide the sum by the template's length.
- **HandProcessor** (`classifier.dfy`, `hand_processor.dfy`). Its state is the centroid
  history `handCenterPositions`, the flags `canDoGestures`, `stationary` and `record`, and the
  buffer `gesturePoints`. Each frame, in order:
  1. append the centroid;
  2. enable gestures once more than 10 centroids exist;
  3. test the three samples before the newest against their mean (squared distance versus
     `0.04 * min(1920, 1080)`, which is 43.2);
  4. update `stationary` and `record`;
  5. buffer the newest centroid while recording;
  6. when recording stops with more than 5 buffered centroids, run `classifyGesture` over
     the templates.

  `classifyGesture` is a first-wins strict arg-min, starting from a bound of `2*31 - 1` (61)
  and the index -1.

Coordinates are exact `real`s. Python's `** 0.5` is a parameter `sqrt: real -> real`.
`Geometry.IsSqrt` constrains it to return the non-negative square root. The cosines and sines
of the circle template are also a parameter (`circlePoints`).

Specified by functions, with the loops and state changes proved against them:

- `CurveDistance` is proved against `CurveLength`, which is the sum of `Segments`.
- `CompareGesture` is proved against `CompareScore`. The in-place scaling is proved against
  `ScaleAll`, and the error loop against `ErrorSum`.
- `ClassifyGesture` is proved against `IsBestMatch`.
- `DetermineStationary`, `DetermineIfGesture` and `Step` are proved against `NextMode` and
  `StationaryUpdate`. `DetermineStationary` changes only the two flags. It does not keep
  `Valid`: between it and the buffer update, `record` and `gesturePoints` can disagree.
  `DetermineIfGesture`, which starts from the state `AddCentroid` leaves (`Appended`), and
  `Step` re-establish the class invariant `Valid`, which includes these facts:
  - `record` implies `!stationary`;
  - `!record` implies that `gesturePoints` is empty;
  - `canDoGestures` holds exactly when the history has more than 10 entries;
  - while recording, the buffer is the latest run of centroids.

Notes on the code as written, which the model follows:

- The error loop of `compareGesture` starts at index 0 (version2.py:42). The comment at
  version2.py:38-39 says the origin point can be ignored, but it is still visited; it adds
  the error of the scaled origin against the first template point, which is zero.
- The index map `int(i * (T - 1) / float(G - 1))` (version2.py:43) truncates toward zero; on
  its non-negative operands that is the floor.
- The total error is divided by the template's length (version2.py:48), not the gesture's.
- The only rescaling is by the ratio of the two curve lengths (version2.py:31-32). There is
  no bounding-box rescale and no arc-length lookup.
- `__init__` starts with `stationary = False` and `record = False` (version2.py:62-63).
- The stationary test looks only at `handCenterPositions[-4:-1]`, the three samples before
  the newest, against their own mean (version2.py:188-195).
- The search starts from the bound `2*31 - 1`, which is 61, although the comment calls it
  "a large value" (version2.py:172). A gesture that no template scores below 61 gives index -1.
- A zero curve length raises no error. numpy's float division yields nan: `0.0 * inf` at the
  normalized origin when the gesture's length is zero, or `0.0 / 0.0` at version2.py:48
  when the template's length is zero. nan never passes `error < minError`. The model marks
  such a comparison as `DegenerateGesture` or `DegenerateTemplate`.

## Model

| member | source | states |
|---|---|---|
| Geometry.Error | version2.py:50-52 | the squared error between two points is non-negative |
| Geometry.ErrorZero | version2.py:50-52 | the error is zero exactly when the two points are equal |
| Geometry.ErrorSymmetric | version2.py:50-52 | the error does not depend on the order of the points |
| Geometry.ErrorTranslation | version2.py:50-52 | moving both points by one offset keeps their error |
| Geometry.ErrorScale | version2.py:50-52 | scaling both points by k multiplies their error by k*k |
| Geometry.Dist | version2.py:17 | a segment length is non-negative |
| Geometry.DistSquare | version2.py:17 | a segment length squared is the error of its end points |
| Geometry.DistZero | version2.py:17 | a segment has length zero exactly when its end points coincide |
| Geometry.DistSymmetric | version2.py:17 | segment length does not depend on direction |
| Geometry.DistTranslation | version2.py:17 | segment length is invariant under translation |
| Geometry.DistScale | version2.py:17 | scaling by k >= 0 scales a segment length by k |
| GestureTemplates.Normalize | version2.py:20-22 | normalizePoints keeps the length, maps the first point to the origin, and adding back the first point restores every point |
| GestureTemplates.NormalizeKeepsDifferences | version2.py:20-22 | every pairwise difference p[i] - p[j] is preserved |
| GestureTemplates.NormalizeFixed | version2.py:20-22 | a curve starting at the origin is unchanged |
| GestureTemplates.NormalizeTranslate | version2.py:20-22 | the normalized curve does not depend on where the curve was drawn |
| GestureTemplates.NormalizeScale | version2.py:20-22 | normalization commutes with uniform scaling |
| GestureTemplates.Segments | version2.py:16-17 | one non-negative segment length per consecutive pair, none for fewer than two points |
| GestureTemplates.CurveLength | version2.py:14-18 | the polyline length is non-negative |
| GestureTemplates.CurveLengthStep | version2.py:16-17 | extending a curve by one point adds the new segment's length |
| GestureTemplates.CurveDistance | version2.py:14-18 | the accumulating loop returns the polyline length |
| GestureTemplates.CurveLengthZero | version2.py:14-18 | the length is zero exactly when all points coincide |
| GestureTemplates.CurveLengthSameSteps | version2.py:14-18 | curves built from the same steps have the same length |
| GestureTemplates.CurveLengthNormalize | version2.py:9-10 | the normalized points have the length of the raw points |
| GestureTemplates.CurveLengthScale | version2.py:14-18 | scaling a curve by k >= 0 scales its length by k |
| GestureTemplates.NewTemplate | version2.py:7-11 | __init__ stores the normalized points, their length (equal to the raw curve's) and the name; the template starts at the origin |
| GestureTemplates.SelfIndex | version2.py:43 | the mapped template index is always a valid index |
| GestureTemplates.SelfIndexEnds | version2.py:42-43 | gesture index 0 maps to 0 and the last gesture index maps to the last template index |
| GestureTemplates.SelfIndexMonotone | version2.py:42-43 | the index map is non-decreasing |
| GestureTemplates.SelfIndexIdentity | version2.py:42-43 | with equal point counts every index maps to itself |
| GestureTemplates.ErrorSum | version2.py:41-45 | the summed error is non-negative |
| GestureTemplates.ErrorSumUpdate | version2.py:41-45 | every visited gesture index contributes its own error exactly once |
| GestureTemplates.ErrorSumSelf | version2.py:41-45 | a curve compared with itself has total error zero |
| GestureTemplates.ScaleInPlace | version2.py:32 | gesturePoints *= scaleFactor scales every point of the array in place |
| GestureTemplates.ToArray | version2.py:27 | np.array makes a fresh array holding the points |
| GestureTemplates.TotalError | version2.py:41-45 | the loop from i = 0 sums the error of every gesture index against its mapped template point |
| GestureTemplates.ScoreCurve | version2.py:30-48 | defines the score of a normalized curve: degenerate for a zero gesture or template length, else the error sum of the curve rescaled by templateDistance / gestureDistance, divided by templateDistance |
| GestureTemplates.CompareScore | version2.py:26-48 | defines compareGesture's value: ScoreCurve of the captured points minus the last two, normalized |
| GestureTemplates.CompareGesture | version2.py:24-48 | compareGesture returns the score of the captured points minus the last two, normalized, rescaled to the template's length, summed over every index and divided by the template's length, or a degenerate result for a zero length |
| GestureTemplates.ScoreIgnoresLastTwo | version2.py:26 | gestures that agree except in their last two points get the same score |
| GestureTemplates.ScoreNonNegative | version2.py:48 | against a valid template, a score is never negative |
| GestureTemplates.ScoreDegenerate | version2.py:30-31 | the gesture is degenerate exactly when its scored points coincide; the template is degenerate exactly when, otherwise, all its points are the origin |
| GestureTemplates.ScoreTranslationInvariant | version2.py:28 | translating the gesture keeps its score |
| GestureTemplates.ScoreCurveScale | version2.py:30-32 | rescaling to the template's length undoes any prior positive scaling |
| GestureTemplates.ScoreScaleInvariant | version2.py:24-32 | drawing the gesture at any positive size keeps its score |
| GestureTemplates.ScoreCurveSelf | version2.py:41-48 | a template's own points score exactly zero against it |
| GestureTemplates.SelfMatch | version2.py:24-48 | the template's points followed by any two trimmed points score zero |
| GestureTemplates.SimilarCopyMatches | version2.py:24-48 | a translated, positively scaled copy of the template (plus two trimmed points) scores zero |
| Classifier.Scores | version2.py:174-175 | one comparison per template, in template order |
| Classifier.IsBestMatch | version2.py:172-179 | defines the selection rule: -1 when no score is below 61; otherwise an index whose score is below 61 and strictly below every earlier score, with no later score strictly below it |
| Classifier.BestMatchUnique | version2.py:172-179 | the selection rule picks at most one index: there are no ties |
| Classifier.BestMatchMinimal | version2.py:172-179 | the chosen score is at most every other score, and strictly below every earlier one |
| Classifier.SearchedStep | version2.py:177-179 | one iteration keeps minError and minErrorIndex the best of the scores seen so far |
| Classifier.ClassifyGesture | version2.py:171-180 | the result is -1 when no score is below 61; otherwise it is an index whose score is below 61 and strictly below every earlier score, with no later score strictly below it |
| HandProcessing.ToPoints | version2.py:27 | the centroids become float points, one per centroid |
| HandProcessing.StationaryThresholdValue | version2.py:195 | the threshold 0.04 * min(1920, 1080) is 43.2 |
| HandProcessing.Window | version2.py:188-193 | the window is the three samples before the newest |
| HandProcessing.Mean | version2.py:188-191 | defines np.average of the window's x and of its y coordinates |
| HandProcessing.Deviates | version2.py:195 | defines the deviation test: the squared distance from the mean exceeds the threshold |
| HandProcessing.Moving | version2.py:193-195 | defines the loop's early-return condition: some sample of the window deviates from the window's mean |
| HandProcessing.NextMode | version2.py:187-207 | defines a frame's effect on the flags: StationaryUpdate once canDoGestures holds, no change before |
| HandProcessing.MovingIgnoresNewest | version2.py:188-193 | the newest centroid never affects the stationary test |
| HandProcessing.SteadyIsStill | version2.py:190-195 | three coinciding samples never count as moving |
| HandProcessing.MeanTranslate | version2.py:190-191 | the mean of a translated window is the translated mean |
| HandProcessing.MovingTranslationInvariant | version2.py:188-195 | moving the whole history by a pixel offset keeps the stationary test's answer |
| HandProcessing.StationaryUpdate | version2.py:196-207 | stationary becomes not-moving; recording starts exactly on a moving frame after a stationary one and stops exactly on a still frame after a non-stationary one; record excludes stationary whenever it did before |
| HandProcessing.Line | version2.py:70-73 | the line has the requested number of points |
| HandProcessing.LineSegment | version2.py:70-73 | each segment of a horizontal line has length one |
| HandProcessing.LineLength | version2.py:68-75 | a line of n points has length n - 1 |
| HandProcessing.LineNormalized | version2.py:70-73 | a line template keeps its points, since it already starts at the origin |
| HandProcessing.NewLineTemplate | version2.py:70-75 | the line template has the line's points, length n - 1 and the given name |
| HandProcessing.InitGestureTemplates | version2.py:68-79 | the template list is exactly the leftward line, the rightward line (both 100 points, length 99) and the circle, in that order, all valid |
| HandProcessing.HandProcessor.constructor | version2.py:55-66 | the state starts with an empty history and buffer, both flags false, and the initial templates |
| HandProcessing.HandProcessor.AddCentroid | version2.py:123-126 | the centroid is appended and canDoGestures holds exactly when more than 10 centroids exist |
| HandProcessing.HandProcessor.DetermineStationary | version2.py:182-207 | the flags change exactly as StationaryUpdate says once gestures are possible, and not before; nothing else changes |
| HandProcessing.HandProcessor.DetermineIfGesture | version2.py:159-169 | the flags update; the newest centroid is buffered while recording; the buffer is emptied otherwise; classification happens exactly when recording stops with more than 5 points, and returns the best match of the buffer; the invariant is kept |
| HandProcessing.HandProcessor.Step | version2.py:227-230 | one frame appends the centroid and runs the gesture logic, keeping the invariant: record implies not stationary, no recording implies an empty buffer |

## Left out

- Camera capture and every OpenCV stage before the centroid: flipping, contrast, thresholding,
  contours, the largest-contour search, hull and defects, and moments. `Step` takes the integer
  centroid as its input.
- `analyzeHandCenter` (a `np.polyfit` whose fit is never used; only its sorted recent
  positions are drawn), all drawing code,
  `printValues` and `setHandDimensions`.
- `time.time()` and `stationaryTimeStart`, which is never read; `endGesture`, which is never
  read.
- The `process` loop, the module-level `HandProcessor().process()` call and
  `HandProcessorSingleImage`. `Step` is one iteration of the loop's gesture part.
- Floating-point rounding: all arithmetic is on exact reals, and the square root is the
  parameter `sqrt`.
- `math.cos`, `math.sin` and `np.linspace` for the circle template: its 100 points are the
  constructor's parameter `circlePoints`.
- The unused local `minGesturePoints = 5` in `determineIfGesture`: the test itself uses the
  literal 5, and so does the model.
- Classifier.ClassifyGesture: returns the selected index instead of printing the template
  names and errors. It does not model the final print of `gestureTemplates[minErrorIndex]`,
  which reads the last template when the index is -1.
- GestureTemplates.NewTemplate: takes the name as a required parameter. `__init__` defaults it
  to `""`, but every call in `initGestureTemplates` passes a name.
- GestureTemplates.CompareGesture: requires at least four captured points. With fewer, Python
  fails: it indexes an empty array, or divides by `float(0)` in the index map. A zero curve
  length gives `DegenerateGesture` or `DegenerateTemplate` instead of numpy's nan. Both lose
  every comparison, as nan does.
- HandProcessing.HandProcessor.constructor: `canDoGestures` starts false. `__init__` does not
  set it, but every frame sets it before anything reads it. The camera-size constants are
  module constants.
