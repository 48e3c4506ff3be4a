/**
 * The per-frame tracking control of the main loop of detection+kalman.py
 * (lines 109-116 and 138-195), without the camera, the drawing, the
 * plotting and the printing.
 *
 * `FrameStep` is one iteration of the loop on the tracker's state; `Run`
 * is the loop over a finite sequence of processed frames. The class
 * `TrackController` holds the same state in fields and is proved to
 * compute `FrameStep` and `Run`. The lemmas state what the loop actually
 * does: the miss counter only runs while the trajectory history is empty,
 * a hundred frames without a first prediction latch tracking off for
 * good, a reset happens only for a round contour whose centre check failed,
 * and so on.
 */
module Tracking {
  import opened Linalg
  import opened Kalman
  import opened MarkerDetection

  /** Line 173: the count at which `found` is forced false. */
  const MissLimit: nat := 100

  /**
   * One processed frame: the elapsed time `dT` (from the tick counter), the
   * contours the vision library finds in it, and the gain the filter would
   * use if the frame is corrected.
   */
  datatype Frame = Frame(dT: real, contours: seq<Contour>, gain: Gain)

  /**
   * The loop's state: `found`, `not_found_count`, the plotted histories
   * `x_values`, `y_values`, `z_values`, and the filter.
   */
  datatype Tracker = Tracker(
    found: bool,
    notFoundCount: nat,
    xValues: seq<real>,
    yValues: seq<real>,
    zValues: seq<real>,
    filter: FilterState)

  /** Lines 109-116, with the filter as configured at lines 14-37. */
  function Initial(): (t: Tracker)
    ensures WellFormed(t.filter)
  {
    Tracker(false, 0, [], [], [], InitialFilter())
  }

  /** The measurement of lines 178-181: x, y, and the radius twice. */
  function Measurement(c: Circle): Vector4
  {
    [c.x, c.y, c.radius, c.radius]
  }

  /** What the second half of a frame does to the filter. */
  datatype Update = NoUpdate | Reset(measurement: Vector4) | Correction(measurement: Vector4)

  /** Lines 138-154: while `found`, write the time step, predict and record the prediction. */
  function PredictPhase(t: Tracker, dT: real): (r: Tracker)
    requires WellFormed(t.filter)
    ensures WellFormed(r.filter)
  {
    if t.found then
      var f := Predicted(WithTimeStep(t.filter, dT));
      t.(xValues := t.xValues + [f.statePre[0]],
         yValues := t.yValues + [f.statePre[1]],
         zValues := t.zValues + [f.statePre[2]],
         filter := f)
    else
      t
  }

  /** Lines 170, 177 and 183: which filter update a detection leads to. */
  function ChooseUpdate(historyLength: nat, d: Detection): Update
  {
    if historyLength == 0 then NoUpdate
    else match d.circle
      case None => NoUpdate
      case Some(c) => if d.detected then Correction(Measurement(c)) else Reset(Measurement(c))
  }

  /** Lines 168-195, after `found` has been set from the detector. */
  function UpdatePhase(t: Tracker, d: Detection, gain: Gain): (r: Tracker)
    requires WellFormed(t.filter)
    ensures WellFormed(r.filter)
  {
    if |t.xValues| == 0 then
      var n := t.notFoundCount + 1;
      t.(found := if n >= MissLimit then false else d.detected, notFoundCount := n)
    else
      match ChooseUpdate(|t.xValues|, d)
      case NoUpdate => t.(found := d.detected, notFoundCount := 0)
      case Reset(z) => t.(found := true, notFoundCount := 0, filter := Reinitialised(t.filter, z))
      case Correction(z) => t.(found := d.detected, notFoundCount := 0, filter := Corrected(t.filter, z, gain))
  }

  /** One iteration of the main loop; the detector sees the `found` the frame began with. */
  function FrameStep(t: Tracker, fr: Frame): (r: Tracker)
    requires WellFormed(t.filter)
    ensures WellFormed(r.filter)
  {
    UpdatePhase(PredictPhase(t, fr.dT), Detect(fr.contours, t.found), fr.gain)
  }

  /** The update a frame applies to the filter. */
  function FrameUpdate(t: Tracker, fr: Frame): Update
    requires WellFormed(t.filter)
  {
    ChooseUpdate(|PredictPhase(t, fr.dT).xValues|, Detect(fr.contours, t.found))
  }

  /** The loop over a finite sequence of processed frames. */
  function Run(t: Tracker, frames: seq<Frame>): (r: Tracker)
    requires WellFormed(t.filter)
    ensures WellFormed(r.filter)
  {
    if |frames| == 0 then t else FrameStep(Run(t, frames[..|frames| - 1]), frames[|frames| - 1])
  }

  /** Tracking is off for good: nothing has been predicted, `found` is false and the count is past the limit. */
  predicate Latched(t: Tracker)
  {
    |t.xValues| == 0 && !t.found && t.notFoundCount >= MissLimit
  }

  // ---------------------------------------------------------------------
  // One frame
  // ---------------------------------------------------------------------

  /**
   * The histories grow by exactly one entry on a frame that began with
   * `found`, only by appending, and once they are non-empty the miss
   * counter is zero after the frame.
   */
  lemma HistoryStep(t: Tracker, fr: Frame)
    requires WellFormed(t.filter)
    ensures var r := FrameStep(t, fr);
            |r.xValues| == |t.xValues| + (if t.found then 1 else 0)
            && |r.yValues| == |t.yValues| + (if t.found then 1 else 0)
            && |r.zValues| == |t.zValues| + (if t.found then 1 else 0)
            && t.xValues <= r.xValues && t.yValues <= r.yValues && t.zValues <= r.zValues
    ensures |FrameStep(t, fr).xValues| > 0 ==> FrameStep(t, fr).notFoundCount == 0
  {
  }

  /**
   * While the history is empty, the counter goes up by one per frame and
   * `found` is false from the hundredth such frame on.
   */
  lemma EmptyHistoryStep(t: Tracker, fr: Frame)
    requires WellFormed(t.filter)
    requires |FrameStep(t, fr).xValues| == 0
    ensures !t.found && |t.xValues| == 0
    ensures FrameStep(t, fr).notFoundCount == t.notFoundCount + 1
    ensures FrameStep(t, fr).notFoundCount >= MissLimit ==> !FrameStep(t, fr).found
    ensures FrameStep(t, fr).filter == t.filter
    ensures FrameStep(t, fr).yValues == t.yValues && FrameStep(t, fr).zValues == t.zValues
  {
  }

  /**
   * While searching, `found` after a frame is the detector's flag, which
   * here is "some round contour passes the centre check", unless the frame
   * brings the counter to the limit.
   */
  lemma FoundWhileSearching(t: Tracker, fr: Frame)
    requires WellFormed(t.filter) && |t.xValues| == 0 && !t.found
    ensures FrameStep(t, fr).found == (t.notFoundCount + 1 < MissLimit && AnyConfirmed(fr.contours))
  {
    LastQualifyingNone(fr.contours);
  }

  /**
   * Once tracking has begun, `found` after a frame is exactly "some contour
   * is round": the centre check only chooses between reset and correction.
   */
  lemma FoundWhileTracking(t: Tracker, fr: Frame)
    requires WellFormed(t.filter) && (|t.xValues| > 0 || t.found)
    ensures FrameStep(t, fr).found == AnyQualifies(fr.contours)
  {
    LastQualifyingNone(fr.contours);
  }

  /**
   * Tracking starts: a confirmed marker in a search frame below the limit
   * sets `found`, and the next frame records exactly one prediction.
   */
  lemma TrackingStarts(t: Tracker, fr: Frame, next: Frame)
    requires WellFormed(t.filter) && |t.xValues| == 0 && !t.found
    requires t.notFoundCount + 1 < MissLimit && AnyConfirmed(fr.contours)
    ensures FrameStep(t, fr).found
    ensures |FrameStep(FrameStep(t, fr), next).xValues| == 1
  {
    FoundWhileSearching(t, fr);
    EmptyHistoryStep(t, fr);
    HistoryStep(FrameStep(t, fr), next);
  }

  /**
   * A recorded prediction is the posterior position of the frame before:
   * x and y are carried over, and the recorded "Z" is the time step times
   * the x-velocity estimate.
   */
  lemma PredictionIsPosterior(t: Tracker, fr: Frame)
    requires WellFormed(t.filter) && t.found
    ensures var r, s := FrameStep(t, fr), t.filter.statePost;
            |r.xValues| > 0 && |r.yValues| > 0 && |r.zValues| > 0
            && r.xValues[|r.xValues| - 1] == s[0]
            && r.yValues[|r.yValues| - 1] == s[1]
            && r.zValues[|r.zValues| - 1] == fr.dT * s[2]
  {
    var f := WithTimeStep(t.filter, fr.dT);
    PredictKeepsPosition(f);
    assert f.transitionMatrix[2][2] == fr.dT by {
      TransitionMatrixEntries(fr.dT);
    }
  }

  /**
   * Which update a frame applies. A reset happens exactly on frames that
   * begin without `found` but with a history, where some contour is round
   * and none passes the centre check; a correction exactly where some
   * contour is round and either `found` held or the centre check confirmed it; and the measurement is
   * always built from the last round contour.
   */
  lemma UpdateChoice(t: Tracker, fr: Frame)
    requires WellFormed(t.filter)
    ensures FrameUpdate(t, fr).Reset? <==>
              |t.xValues| > 0 && !t.found && AnyQualifies(fr.contours) && !AnyConfirmed(fr.contours)
    ensures FrameUpdate(t, fr).Correction? <==>
              (|t.xValues| > 0 || t.found) && AnyQualifies(fr.contours) && (t.found || AnyConfirmed(fr.contours))
    ensures !FrameUpdate(t, fr).NoUpdate? ==>
              LastQualifying(fr.contours).Some? && FrameUpdate(t, fr).measurement == Measurement(LastQualifying(fr.contours).value)
  {
    LastQualifyingNone(fr.contours);
  }

  /** A confirmed marker is never the cause of a reset. */
  lemma ConfirmedMarkerNeverResets(t: Tracker, fr: Frame)
    requires WellFormed(t.filter) && AnyConfirmed(fr.contours)
    ensures !FrameUpdate(t, fr).Reset?
  {
    UpdateChoice(t, fr);
  }

  /**
   * After a reset the state is [x, y, 0, 0, r, r] from the last round
   * contour, the prior covariance is the identity, `found` is true, and the
   * posterior covariance keeps the value it had.
   */
  lemma ResetState(t: Tracker, fr: Frame)
    requires WellFormed(t.filter) && FrameUpdate(t, fr).Reset?
    ensures LastQualifying(fr.contours).Some?
    ensures var r, c := FrameStep(t, fr), LastQualifying(fr.contours).value;
            r.filter.statePost == [c.x, c.y, 0.0, 0.0, c.radius, c.radius]
            && r.filter.errorCovPre == Identity(StateSize)
            && r.filter.errorCovPost == t.filter.errorCovPost
            && r.found && r.notFoundCount == 0
  {
    UpdateChoice(t, fr);
  }

  /**
   * The identity prior written by a reset never reaches `correct`: the next
   * frame begins with `found`, so it predicts first, and the prediction
   * recomputes the prior from the posterior covariance. Whatever prior the
   * reset had written, the next frame ends in the same state.
   */
  lemma ResetPriorOverwritten(t: Tracker, fr: Frame, next: Frame, p: Matrix6)
    requires WellFormed(t.filter) && FrameUpdate(t, fr).Reset?
    ensures var r := FrameStep(t, fr);
            r.found && FrameStep(r.(filter := r.filter.(errorCovPre := p)), next) == FrameStep(r, next)
  {
    var r := FrameStep(t, fr);
    ResetState(t, fr);
    var r' := r.(filter := r.filter.(errorCovPre := p));
    var f, f' := WithTimeStep(r.filter, next.dT), WithTimeStep(r'.filter, next.dT);
    assert f' == f.(errorCovPre := p);
    PredictIgnoresPrior(f, p);
    assert PredictPhase(r', next.dT) == PredictPhase(r, next.dT);
  }

  /** After a reset, the next recorded prediction is the measured position, with zero "Z". */
  lemma PredictionAfterReset(t: Tracker, fr: Frame, next: Frame)
    requires WellFormed(t.filter) && FrameUpdate(t, fr).Reset?
    ensures LastQualifying(fr.contours).Some?
    ensures var r, c := FrameStep(FrameStep(t, fr), next), LastQualifying(fr.contours).value;
            |r.xValues| > 0 && |r.yValues| > 0 && |r.zValues| > 0
            && r.xValues[|r.xValues| - 1] == c.x
            && r.yValues[|r.yValues| - 1] == c.y
            && r.zValues[|r.zValues| - 1] == 0.0
  {
    ResetState(t, fr);
    PredictionIsPosterior(FrameStep(t, fr), next);
  }

  // ---------------------------------------------------------------------
  // Runs of frames
  // ---------------------------------------------------------------------

  /** Running `a` then `b` is running `a + b`. */
  lemma {:induction false} RunAppend(t: Tracker, a: seq<Frame>, b: seq<Frame>)
    requires WellFormed(t.filter)
    ensures Run(t, a + b) == Run(Run(t, a), b)
  {
    if |b| == 0 {
      assert a + b == a;
    } else {
      var b' := b[..|b| - 1];
      assert (a + b)[..|a + b| - 1] == a + b';
      assert (a + b)[|a + b| - 1] == b[|b| - 1];
      RunAppend(t, a, b');
    }
  }

  /** The histories are only ever appended to. */
  lemma {:induction false} HistoryGrows(t: Tracker, frames: seq<Frame>)
    requires WellFormed(t.filter)
    ensures var r := Run(t, frames);
            t.xValues <= r.xValues && t.yValues <= r.yValues && t.zValues <= r.zValues
  {
    if |frames| > 0 {
      var prev := Run(t, frames[..|frames| - 1]);
      HistoryGrows(t, frames[..|frames| - 1]);
      HistoryStep(prev, frames[|frames| - 1]);
    }
  }

  /** Once something has been predicted, `not_found_count` is zero after every frame. */
  lemma CounterInert(t: Tracker, frames: seq<Frame>)
    requires WellFormed(t.filter) && |t.xValues| > 0 && |frames| > 0
    ensures Run(t, frames).notFoundCount == 0
  {
    var prev := Run(t, frames[..|frames| - 1]);
    HistoryGrows(t, frames[..|frames| - 1]);
    HistoryStep(prev, frames[|frames| - 1]);
  }

  /** While nothing has been predicted, the counter counts every frame. */
  lemma {:induction false} SearchCount(t: Tracker, frames: seq<Frame>)
    requires WellFormed(t.filter) && |Run(t, frames).xValues| == 0
    ensures Run(t, frames).notFoundCount == t.notFoundCount + |frames|
  {
    if |frames| > 0 {
      var init := frames[..|frames| - 1];
      EmptyHistoryStep(Run(t, init), frames[|frames| - 1]);
      SearchCount(t, init);
    }
  }

  /** A latched tracker stays latched, whatever the frames show, and keeps counting. */
  lemma {:induction false} LatchPersists(t: Tracker, frames: seq<Frame>)
    requires WellFormed(t.filter) && Latched(t)
    ensures Latched(Run(t, frames))
    ensures Run(t, frames).notFoundCount == t.notFoundCount + |frames|
  {
    if |frames| > 0 {
      LatchPersists(t, frames[..|frames| - 1]);
    }
  }

  /**
   * If nothing has been predicted within the first hundred frames, nothing
   * ever is: `found` is false after every later frame and the history stays
   * empty.
   */
  lemma NoTrackingAfterHundredMisses(frames: seq<Frame>)
    requires |frames| >= MissLimit && |Run(Initial(), frames[..MissLimit]).xValues| == 0
    ensures Latched(Run(Initial(), frames))
  {
    var first := frames[..MissLimit];
    var t := Run(Initial(), first);
    SearchCount(Initial(), first);
    EmptyHistoryStep(Run(Initial(), first[..MissLimit - 1]), first[MissLimit - 1]);
    assert Latched(t);
    LatchPersists(t, frames[MissLimit..]);
    RunAppend(Initial(), first, frames[MissLimit..]);
    assert first + frames[MissLimit..] == frames;
  }

  /** Before the first prediction the filter is exactly as created, and nothing is recorded. */
  lemma {:induction false} FilterUntouchedWhileSearching(frames: seq<Frame>)
    requires |Run(Initial(), frames).xValues| == 0
    ensures Run(Initial(), frames).filter == InitialFilter()
    ensures Run(Initial(), frames).yValues == [] && Run(Initial(), frames).zValues == []
  {
    if |frames| > 0 {
      var init := frames[..|frames| - 1];
      EmptyHistoryStep(Run(Initial(), init), frames[|frames| - 1]);
      FilterUntouchedWhileSearching(init);
    }
  }

  /**
   * The first recorded prediction is the origin (0, 0, 0): the filter starts
   * from a zero state and the first tracked frame predicts before any
   * measurement has been fed in.
   */
  lemma {:induction false} FirstPredictionAtOrigin(frames: seq<Frame>)
    requires |Run(Initial(), frames).xValues| > 0
    ensures var r := Run(Initial(), frames);
            |r.yValues| > 0 && |r.zValues| > 0
            && r.xValues[0] == 0.0 && r.yValues[0] == 0.0 && r.zValues[0] == 0.0
  {
    var init := frames[..|frames| - 1];
    var prev := Run(Initial(), init);
    var last := frames[|frames| - 1];
    HistoryStep(prev, last);
    if |prev.xValues| > 0 {
      FirstPredictionAtOrigin(init);
      assert |prev.yValues| > 0 && |prev.zValues| > 0;
    } else {
      FilterUntouchedWhileSearching(init);
      PredictionIsPosterior(prev, last);
    }
  }

  // ---------------------------------------------------------------------
  // The loop's state in place
  // ---------------------------------------------------------------------

  /** The main loop's variables, with the filter object they drive. */
  class TrackController {
    var found: bool
    var notFoundCount: nat
    var xValues: seq<real>
    var yValues: seq<real>
    var zValues: seq<real>
    const kf: KalmanFilter

    ghost predicate Valid()
      reads this, kf
    {
      kf.Valid()
    }

    function Snapshot(): Tracker
      reads this, kf
    {
      Tracker(found, notFoundCount, xValues, yValues, zValues, kf.State())
    }

    /** Lines 109-116, with a filter configured as at lines 14-37. */
    constructor ()
      ensures Valid() && fresh(kf)
      ensures Snapshot() == Initial()
    {
      found := false;
      notFoundCount := 0;
      xValues := [];
      yValues := [];
      zValues := [];
      kf := new KalmanFilter();
    }

    /** Lines 138-154. */
    method PredictIfFound(dT: real)
      requires Valid()
      modifies this, kf
      ensures Valid()
      ensures Snapshot() == PredictPhase(old(Snapshot()), dT)
    {
      if found {
        ghost var f0 := kf.State();
        kf.SetTimeStep(dT);
        ghost var f1 := kf.State();
        assert f1 == WithTimeStep(f0, dT);
        var state := kf.Predict();
        ghost var f2 := kf.State();
        assert f2 == Predicted(f1);
        assert state == f2.statePre;
        xValues := xValues + [state[0]];
        yValues := yValues + [state[1]];
        zValues := zValues + [state[2]];
      }
    }

    /** Lines 168-195, given what the detector returned. */
    method ApplyDetection(detected: bool, circle: Option<Circle>, gain: Gain)
      requires Valid()
      modifies this, kf
      ensures Valid()
      ensures Snapshot() == UpdatePhase(old(Snapshot()), Detection(detected, circle), gain)
    {
      found := detected;
      if |xValues| == 0 {
        notFoundCount := notFoundCount + 1;
        if notFoundCount >= MissLimit {
          found := false;
        }
      } else {
        notFoundCount := 0;
        if circle.Some? {
          var meas := Measurement(circle.value);
          if !found {
            kf.errorCovPre := Identity(StateSize);
            kf.statePost := [meas[0], meas[1], 0.0, 0.0, meas[2], meas[3]];
            found := true;
          } else {
            var _ := kf.Correct(meas, gain);
          }
        }
      }
    }

    /** One iteration of the main loop, lines 138-195. */
    method Step(frame: Frame)
      requires Valid()
      modifies this, kf
      ensures Valid()
      ensures Snapshot() == FrameStep(old(Snapshot()), frame)
    {
      var wasFound := found;
      PredictIfFound(frame.dT);
      var detected, circle := DetectMarker(frame.contours, wasFound);
      ApplyDetection(detected, circle, frame.gain);
    }

    /** The main loop over a finite sequence of processed frames. */
    method ProcessFrames(frames: seq<Frame>)
      requires Valid()
      modifies this, kf
      ensures Valid()
      ensures Snapshot() == Run(old(Snapshot()), frames)
    {
      ghost var start := Snapshot();
      for i := 0 to |frames|
        invariant Valid()
        invariant Snapshot() == Run(start, frames[..i])
      {
        assert frames[..i + 1][..i] == frames[..i];
        Step(frames[i]);
      }
      assert frames[..|frames|] == frames;
    }
  }
}
