# Marker tracking with a Kalman filter: a Dafny model

This project models the decision logic of `detection+kalman.py`, a
tracker that follows a circular marker in a camera
stream and smooths its position and size with a six-state Kalman filter
(state `[x, y, vx, vy, w, h]`, measurement `[x, y, w, h]`). It has three parts.

- **Marker detection** (`marker_detection.dfy`, module `MarkerDetection`).
  The contour loop of `detect_marker` works over abstract contour records:
  area, closed arc length, minimal enclosing circle, and the non-zero pixel
  count of the 10x10 grey region around the circle's centre after a binary
  threshold at 50. A contour qualifies when its perimeter
  is non-zero, its area is over 1000 and its circularity `4·PI·area/perimeter²`
  is over 0.8. `PI` is the 16-digit decimal 3.141592653589793, close to but
  not exactly the double value of np.pi. The method is proved
  against an independent description. The returned circle is that of the
  *last* qualifying contour, written before its centre check. The returned
  flag is true when some qualifying contour has a pixel brighter than 50 in
  its centre region, false when nothing qualifies, and otherwise the flag
  passed in. The source comments call this a black dot being detected, but
  the test as written confirms a contour whose centre region has any bright
  pixel and rejects an all-dark centre region. The model follows the test
  as written.
- **Filter configuration and library operations** (`kalman.dfy`, module
  `Kalman`, using `linalg.dfy`). H, Q and the transition matrix F are built
  by the same entry writes as the script, and R as 0.1 times the identity. F is the identity with the time step
  written on the *diagonal* entries (2,2) and (3,3), so positions are never
  moved by a prediction. `predict` and `correct` follow the vision library's
  documented update equations, computed in exact reals. The class
  `KalmanFilter` holds the filter's matrices as fields.
- **Tracking control** (`tracking.dfy`, module `Tracking`). One iteration of
  the main loop is `FrameStep`, and a finite run of frames is `Run`. The class
  `TrackController` holds `found`, `not_found_count`, the plotted histories and
  the filter, and is proved to compute exactly `FrameStep` and `Run`. The
  lemmas state how the code behaves:
  - the miss counter only runs while the history is empty;
  - while searching, `found` becomes true only for a confirmed marker; once
    tracking has begun, `found` after a frame is just whether some contour is
    round;
  - a hundred frames without a first prediction latch tracking off for good;
  - a reset happens only for a round contour whose centre check failed,
    never for a confirmed marker;
  - the identity prior written at a reset never reaches `correct`;
  - the very first recorded prediction is the origin.

Matrices are sequences of rows held in fields that are reassigned. Each
in-place entry write to the configuration matrices H and Q and to the
transition matrix F is one `SetEntry`. The entry writes to `meas` (lines
178-181) and to `state` (lines 185-190) are modelled as whole-vector values
(`Measurement` and `Reinitialised`).

## Code versus a textbook tracker

The model follows what the code does. A textbook constant-velocity tracker
with a consecutive-miss timeout would behave differently in these places:
- It would pick the most circular candidate. The code keeps the last
  qualifying contour.
- It would reject an unconfirmed candidate. The code still returns its
  position.
- It would put `dt` in the position-from-velocity entries (0,2) and (1,3).
  The code writes `dT` on the diagonal velocity entries (2,2) and (3,3).
- It would count consecutive misses. The code's counter is driven by the
  length of `x_values`, so it is inert once anything has been predicted.
- It would re-initialise the filter from a confirmed detection. The code
  resets only when the detector's flag is false, so a reset only ever comes
  from an unconfirmed candidate.
- It would keep the time step positive. The code does not, and `Frame.dT`
  can be any real.

## Model

| member | source | states |
|---|---|---|
| `MarkerDetection.DetectMarker` | detection+kalman.py:39-97 | the returned circle is that of the last contour with non-zero perimeter, area > 1000 and circularity > 0.8 (None if none); the flag is true if some such contour has a pixel above 50 in its centre region, false if none qualifies, and otherwise the incoming flag |
| `MarkerDetection.LastQualifyingNone` | detection+kalman.py:56-72 | no position is returned exactly when no contour qualifies |
| `MarkerDetection.LastQualifyingIsLast` | detection+kalman.py:59-72 | a returned circle belongs to a qualifying contour after which no contour qualifies |
| `MarkerDetection.LastQualifyingOf` | detection+kalman.py:59-72 | the circle of a qualifying contour with nothing qualifying after it is the one returned, whatever came before |
| `MarkerDetection.PositionWithoutConfirmation` | detection+kalman.py:66-95 | a round contour (area 2000, perimeter 160) with no pixel above 50 in its centre region, seen with the flag false, gives a position together with a false flag |
| `MarkerDetection.ConfirmationFromAnotherContour` | detection+kalman.py:86-95 | an earlier round contour whose centre region passes the threshold sets the flag, while a later round contour whose centre region fails supplies the position |
| `Kalman.MeasurementMatrixEntries` | detection+kalman.py:21-25 | H has 1 exactly at (0,0), (1,1), (2,4), (3,5) and 0 elsewhere |
| `Kalman.ObserveSelects` | detection+kalman.py:21-25 | H·s = [s0, s1, s4, s5] for every state s |
| `Kalman.ProcessNoiseCovDiagonal` | detection+kalman.py:28-34 | Q is diagonal with diagonal [0.01, 0.01, 5, 5, 0.01, 0.01] |
| `Kalman.MeasurementNoiseCovEntries` | detection+kalman.py:37 | R is 0.1 on the diagonal and 0 elsewhere |
| `Kalman.IdentityIsUnitStep` | detection+kalman.py:19 | the identity set at start-up is the transition matrix of a unit time step |
| `Kalman.TransitionMatrixEntries` | detection+kalman.py:139-140 | F after writing dT is diagonal, dT at (2,2) and (3,3), 1 elsewhere on the diagonal, no coupling entries |
| `Kalman.TransitionApply` | detection+kalman.py:139-140 | F·s = [s0, s1, dT·s2, dT·s3, s4, s5] |
| `Kalman.RewriteTimeStep` | detection+kalman.py:139-140 | writing dT into (2,2) and (3,3) of any earlier transition matrix gives the one for dT |
| `Kalman.WithTimeStep` | detection+kalman.py:139-140 | after lines 139-140 the transition matrix is that of dT and nothing else of the filter changes |
| `Kalman.PredictKeepsPosition` | detection+kalman.py:142 | the prediction keeps x, y, w, h of the posterior and multiplies vx, vy by the time step, and is copied into the posterior |
| `Kalman.PredictIgnoresPrior` | detection+kalman.py:142 | the result of a prediction does not depend on the prior covariance it replaces |
| `Kalman.InnovationEntries` | detection+kalman.py:178-181 | the innovation of the measurement [x, y, r, r] is [x − s0, y − s1, r − s4, r − s5] |
| `Kalman.CorrectAtPrediction` | detection+kalman.py:195 | a measurement equal to the predicted observation leaves the corrected state at the prediction, for any gain |
| `Kalman.CorrectKeepsPrior` | detection+kalman.py:195 | correct changes neither the a-priori state, nor the prior covariance, nor the transition matrix |
| `Kalman.KalmanFilter.constructor` | detection+kalman.py:14-37 | a new filter has zero states and covariances, identity transition, and the configured H, Q and R |
| `Kalman.KalmanFilter.SetTimeStep` | detection+kalman.py:139-140 | the in-place writes of dT give the transition matrix of dT, all else unchanged |
| `Kalman.KalmanFilter.Predict` | detection+kalman.py:142 | the filter's new state is the documented prediction of the old one, and the prediction is returned |
| `Kalman.KalmanFilter.Correct` | detection+kalman.py:195 | the filter's new state is the documented correction of the old one with the given gain |
| `Tracking.HistoryStep` | detection+kalman.py:138-176 | a frame appends exactly one entry to each of the three histories iff it began with found, only by appending, and leaves the miss counter at 0 once the history is non-empty |
| `Tracking.EmptyHistoryStep` | detection+kalman.py:170-174 | a frame ending with an empty history began without found, adds 1 to the counter, forces found false at 100, and leaves the filter alone; `FoundWhileSearching` gives found below the limit |
| `Tracking.FoundWhileSearching` | detection+kalman.py:168-174 | in a search frame (empty history, found false) found afterwards is exactly: the count stays below 100 and some round contour passes the centre check |
| `Tracking.FoundWhileTracking` | detection+kalman.py:168-195 | once tracking has begun (history non-empty or found), found after a frame is exactly "some contour is round"; the centre check only chooses reset or correction |
| `Tracking.TrackingStarts` | detection+kalman.py:138-174 | a search frame below the limit with a confirmed contour sets found, and the next frame records exactly one prediction |
| `Tracking.PredictionIsPosterior` | detection+kalman.py:139-154 | the recorded x and y of a prediction are the posterior position of the frame before, and the recorded Z is dT times the x-velocity |
| `Tracking.UpdateChoice` | detection+kalman.py:168-195 | a reset happens iff the history is non-empty, the frame began without found, some contour qualifies and none is confirmed; a correction happens iff something was predicted, some contour qualifies, and found held or the centre check confirmed one; the measurement comes from the last qualifying contour |
| `Tracking.ConfirmedMarkerNeverResets` | detection+kalman.py:168-193 | a frame with a confirmed marker never resets the filter |
| `Tracking.ResetState` | detection+kalman.py:183-193 | after a reset the state is [x, y, 0, 0, r, r], the prior covariance is I, found is true, the counter is 0, and the posterior covariance keeps its old value |
| `Tracking.ResetPriorOverwritten` | detection+kalman.py:184 | the frame after a reset ends in the same state whatever prior covariance the reset wrote |
| `Tracking.PredictionAfterReset` | detection+kalman.py:183-193 | the prediction recorded in the frame after a reset is the measured (x, y) with Z = 0 |
| `Tracking.RunAppend` | detection+kalman.py:122-200 | running two sequences of frames one after the other is running their concatenation |
| `Tracking.HistoryGrows` | detection+kalman.py:152-154 | over any run the histories are only appended to |
| `Tracking.CounterInert` | detection+kalman.py:170-176 | once the history is non-empty, not_found_count is 0 after every later frame |
| `Tracking.SearchCount` | detection+kalman.py:170-172 | while the history stays empty, not_found_count grows by one per frame |
| `Tracking.LatchPersists` | detection+kalman.py:170-174 | an empty history with found false and a count of 100 or more stays so forever, the count going up by one per frame |
| `Tracking.NoTrackingAfterHundredMisses` | detection+kalman.py:138-174 | if nothing has been predicted in the first 100 frames, nothing ever is and found stays false |
| `Tracking.FilterUntouchedWhileSearching` | detection+kalman.py:138-195 | until the first prediction the filter is exactly as created and nothing is recorded |
| `Tracking.FirstPredictionAtOrigin` | detection+kalman.py:138-154 | the first recorded trajectory point is (0, 0, 0) |
| `MarkerDetection.Circularity` | detection+kalman.py:64 | the roundness measure 4·PI·area/perimeter², defined only for a non-zero perimeter; its use is stated by `DetectMarker` and the lemmas on `LastQualifying` |
| `MarkerDetection.Qualifies` | detection+kalman.py:62-66 | the geometric test of the loop: non-zero perimeter, area > 1000, circularity > 0.8; its use is stated by `DetectMarker` and `UpdateChoice` |
| `MarkerDetection.Confirmed` | detection+kalman.py:86 | a qualifying contour whose centre region has a pixel above 50 (`countNonZero(dot_thresh) > 0`); its use is stated by `DetectMarker`, `UpdateChoice` and `FoundWhileSearching` |
| `MarkerDetection.LastQualifying` | detection+kalman.py:56-72 | the position the loop leaves behind; characterised by `LastQualifyingNone`, `LastQualifyingIsLast` and `LastQualifyingOf` |
| `MarkerDetection.Detect` | detection+kalman.py:53-97 | the loop-free description of what `detect_marker` returns; its contract states that a true flag always comes with a position (lines 94-95 clear the flag when nothing qualified), and `DetectMarker` is proved equal to it |
| `Kalman.MeasurementMatrix` | detection+kalman.py:21-25 | H built by the four entry writes on a 4x6 zero matrix; its entries are stated by `MeasurementMatrixEntries` and its action by `ObserveSelects` |
| `Kalman.ProcessNoiseCov` | detection+kalman.py:28-34 | Q built by the six diagonal writes on a 6x6 zero matrix; its entries are stated by `ProcessNoiseCovDiagonal` |
| `Kalman.MeasurementNoiseCov` | detection+kalman.py:37 | R as 0.1 times the 4x4 identity; its entries are stated by `MeasurementNoiseCovEntries` |
| `Kalman.TransitionMatrix` | detection+kalman.py:139-140 | F after the two diagonal writes of dT; its entries are stated by `TransitionMatrixEntries` and its action by `TransitionApply` |
| `Kalman.InitialFilter` | detection+kalman.py:14-19 | the filter as created with identity transition; its contract states the transition matrix has the identity-with-time-step form, and `FilterUntouchedWhileSearching` and `FirstPredictionAtOrigin` use it |
| `Kalman.Predicted` | detection+kalman.py:142 | the library's predict on the filter's state; its contract keeps the transition form, and `PredictKeepsPosition` and `PredictIgnoresPrior` state what it does |
| `Kalman.Innovation` | detection+kalman.py:195 | the z − H·statePre step of `correct`; its entries are stated by `InnovationEntries` |
| `Kalman.Corrected` | detection+kalman.py:195 | the library's correct with a given gain; its contract keeps the transition form, and `CorrectAtPrediction` and `CorrectKeepsPrior` state what it does |
| `Kalman.Reinitialised` | detection+kalman.py:184-192 | the direct writes of a reset; its contract keeps the transition form, and `ResetState`, `ResetPriorOverwritten` and `PredictionAfterReset` state what it does |
| `Tracking.Initial` | detection+kalman.py:109-116 | the loop's starting state: found false, count 0, empty histories, the new filter |
| `Tracking.Measurement` | detection+kalman.py:178-181 | the measurement [x, y, radius, radius]; its use is stated by `UpdateChoice` and `InnovationEntries` |
| `Tracking.PredictPhase` | detection+kalman.py:138-154 | the prediction part of a frame; its contract keeps the transition form, and `PredictionIsPosterior` and `HistoryStep` state what it records |
| `Tracking.ChooseUpdate` | detection+kalman.py:170-183 | which branch of lines 170-195 a detection takes; characterised by `UpdateChoice` and `ConfirmedMarkerNeverResets` |
| `Tracking.UpdatePhase` | detection+kalman.py:168-195 | the update part of a frame; its contract keeps the transition form, and `EmptyHistoryStep`, `CounterInert` and `ResetState` state what it does; `FoundWhileSearching` and `FoundWhileTracking` state the new found in every branch |
| `Tracking.FrameStep` | detection+kalman.py:138-195 | one loop iteration; its contract keeps the transition form, and the one-frame lemmas above state what it does; `FoundWhileSearching`, `FoundWhileTracking` and `TrackingStarts` state the new found and how tracking starts |
| `Tracking.FrameUpdate` | detection+kalman.py:138-183 | the branch a whole frame takes; characterised by `UpdateChoice` |
| `Tracking.Run` | detection+kalman.py:122-200 | the loop over a finite sequence of frames; its contract keeps the transition form over any number of frames, and `RunAppend`, `HistoryGrows`, `SearchCount`, `LatchPersists` and `NoTrackingAfterHundredMisses` state what it does |
| `Tracking.TrackController.constructor` | detection+kalman.py:109-116 | the controller starts with found false, count 0, empty histories and a freshly configured filter |
| `Tracking.TrackController.PredictIfFound` | detection+kalman.py:138-154 | the fields after the prediction part of a frame are those of PredictPhase |
| `Tracking.TrackController.ApplyDetection` | detection+kalman.py:168-195 | the fields after the update part of a frame are those of UpdatePhase for the detector's output |
| `Tracking.TrackController.Step` | detection+kalman.py:122-195 | one loop iteration changes the fields exactly as FrameStep |
| `Tracking.TrackController.ProcessFrames` | detection+kalman.py:122-200 | the loop over a sequence of frames changes the fields exactly as Run |

## Left out

- Camera start, frame waits and stop (lines 100-105, 128-134, 203) are device
  I/O. A frame without a colour image is skipped before it reaches the model;
  the model sees only processed frames.
- The endless loop and its exit on the 'q' key (lines 122, 199-200) are
  modelled as a loop over a finite sequence of processed frames.
- Grey conversion, blur, Canny edges, contour extraction, contour area, arc
  length, minimal enclosing circle, slicing the centre region, thresholding and
  counting non-zero pixels are pixel operations of the vision library. Their
  results are the fields of `Contour`. A centre region cut at the image border is
  part of the abstract `dotPixels` (see the `int()` line below).
- Drawing, `imshow`, the matplotlib plotting and the `print` logging are
  not modelled. The drawing is not pure output: on a tracked frame, lines
  148-149 draw the predicted centre and box onto `res`, and line 168 passes
  that same image to `detect_marker`, which searches it for contours and
  centre regions. So a frame's contours and centre counts may be affected by
  the drawn prediction. The model takes `Frame.contours` as an arbitrary
  input, so every such effect is among the inputs it covers, but it does
  not say which contours the drawing produces.
- `dT` is computed from tick counts (lines 123-125) from the clock; it is an
  input of each `Frame`.
- The `int()` truncations at lines 144-149 are used only for drawing and
  are left out. Those at line 82 cut the centre region. A region near the
  image border can be clipped or, when a start index goes negative, wrapped
  around or empty. That truncation and slicing are part of the abstract
  `dotPixels`.
- Arithmetic is exact real arithmetic, not float32 (the filter) or float64
  (the area, perimeter and circularity of lines 60-66, and np.pi).
- `Kalman.KalmanFilter.Correct`: the Kalman gain is an input. The library
  obtains it by a singular-value solve with H·P'·Hᵀ + R, and that solve is not
  modelled. Nothing is proved about the covariance matrices beyond their
  shape; symmetry and positive semi-definiteness are not stated.
- Aliasing between the script's `state` array and the filter's matrices is
  not modelled. Assigning to `kf.statePost` and returning from `predict` are
  taken to copy the values.
- `marker detection.py`, a separate Hough-circle detector, is not part of this
  model.
