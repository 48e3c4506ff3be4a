/**
 * The Kalman filter object `kf`: its configuration (lines 7-37 of
 * detection+kalman.py) and the two library operations the tracker calls.
 *
 * `predict` and `correct` follow the vision library's documented update
 * equations over exact reals. The Kalman gain of `correct` is obtained by
 * the library from a singular-value solve against H P' H^T + R; that solve
 * is not modelled, and the gain it yields is an input of `Correct`.
 */
module Kalman {
  import opened Linalg

  /** Dimensions of the state [x, y, vx, vy, w, h] and the measurement [x, y, w, h]. */
  const StateSize: nat := 6
  const MeasSize: nat := 4

  type Vector6 = v: Vector | |v| == StateSize witness [0.0, 0.0, 0.0, 0.0, 0.0, 0.0]
  type Vector4 = v: Vector | |v| == MeasSize witness [0.0, 0.0, 0.0, 0.0]
  type Matrix6 = m: Matrix | IsMatrix(m, StateSize, StateSize) witness Zeros(6, 6)
  type Gain = m: Matrix | IsMatrix(m, StateSize, MeasSize) witness Zeros(6, 4)

  // ---------------------------------------------------------------------
  // Configuration
  // ---------------------------------------------------------------------

  /** The measurement matrix: zeros with four entries written to 1. */
  function MeasurementMatrix(): (h: Matrix)
    ensures IsMatrix(h, MeasSize, StateSize)
  {
    SetEntry(SetEntry(SetEntry(SetEntry(Zeros(MeasSize, StateSize), 0, 0, 1.0), 1, 1, 1.0), 2, 4, 1.0), 3, 5, 1.0)
  }

  /** The entries of the measurement matrix that are 1: row `i` observes state index `j`. */
  predicate Observes(i: int, j: int)
  {
    (i == 0 && j == 0) || (i == 1 && j == 1) || (i == 2 && j == 4) || (i == 3 && j == 5)
  }

  /** H has exactly the four unit entries (0,0), (1,1), (2,4), (3,5); the rest is zero. */
  lemma MeasurementMatrixEntries()
    ensures forall i, j :: 0 <= i < MeasSize && 0 <= j < StateSize ==>
              MeasurementMatrix()[i][j] == if Observes(i, j) then 1.0 else 0.0
  {
  }

  /** H s = [s0, s1, s4, s5]: the velocities are never observed. */
  lemma ObserveSelects(s: Vector6)
    ensures MatVec(MeasurementMatrix(), s) == [s[0], s[1], s[4], s[5]]
  {
    var h := MeasurementMatrix();
    MeasurementMatrixEntries();
    DotSingle(h[0], s, 0);
    DotSingle(h[1], s, 1);
    DotSingle(h[2], s, 4);
    DotSingle(h[3], s, 5);
  }

  /** The diagonal of the process noise covariance Q. */
  const ProcessNoiseDiagonal: seq<real> := [0.01, 0.01, 5.0, 5.0, 0.01, 0.01]

  /** The process noise covariance: zeros with the six diagonal entries written. */
  function ProcessNoiseCov(): (q: Matrix)
    ensures IsMatrix(q, StateSize, StateSize)
  {
    var z := Zeros(StateSize, StateSize);
    SetEntry(SetEntry(SetEntry(SetEntry(SetEntry(SetEntry(z,
      0, 0, 0.01), 1, 1, 0.01), 2, 2, 5.0), 3, 3, 5.0), 4, 4, 0.01), 5, 5, 0.01)
  }

  /** Q is diagonal, with position and size variance 0.01 and velocity variance 5. */
  lemma ProcessNoiseCovDiagonal()
    ensures forall i, j :: 0 <= i < StateSize && 0 <= j < StateSize ==>
              ProcessNoiseCov()[i][j] == if i == j then ProcessNoiseDiagonal[i] else 0.0
  {
  }

  /** The measurement noise covariance R = 0.1 I. */
  function MeasurementNoiseCov(): (r: Matrix)
    ensures IsMatrix(r, MeasSize, MeasSize)
  {
    Scale(0.1, Identity(MeasSize))
  }

  lemma MeasurementNoiseCovEntries()
    ensures forall i, j :: 0 <= i < MeasSize && 0 <= j < MeasSize ==>
              MeasurementNoiseCov()[i][j] == if i == j then 0.1 else 0.0
  {
  }

  /**
   * The transition matrix after a time step `dT` has been written: the
   * identity of line 19 with `dT` in the diagonal entries (2,2) and (3,3).
   */
  function TransitionMatrix(dT: real): (f: Matrix)
    ensures IsMatrix(f, StateSize, StateSize)
  {
    SetEntry(SetEntry(Identity(StateSize), 2, 2, dT), 3, 3, dT)
  }

  /** F is diagonal: 1 except dT at (2,2) and (3,3); no position-from-velocity entries. */
  lemma TransitionMatrixEntries(dT: real)
    ensures forall i, j :: 0 <= i < StateSize && 0 <= j < StateSize ==>
              TransitionMatrix(dT)[i][j] == if i != j then 0.0 else if i == 2 || i == 3 then dT else 1.0
  {
  }

  /** F s = [s0, s1, dT s2, dT s3, s4, s5]: positions and sizes are carried over unchanged. */
  lemma TransitionApply(dT: real, s: Vector6)
    ensures MatVec(TransitionMatrix(dT), s) == [s[0], s[1], dT * s[2], dT * s[3], s[4], s[5]]
  {
    var f := TransitionMatrix(dT);
    TransitionMatrixEntries(dT);
    var r := MatVec(f, s);
    forall i | 0 <= i < StateSize
      ensures r[i] == f[i][i] * s[i]
    {
      DotSingle(f[i], s, i);
    }
    assert r[0] == s[0] && r[1] == s[1] && r[4] == s[4] && r[5] == s[5];
    assert r[2] == dT * s[2] && r[3] == dT * s[3];
  }

  /** The identity written at line 19 is the transition matrix of a unit time step. */
  lemma IdentityIsUnitStep()
    ensures Identity(StateSize) == TransitionMatrix(1.0)
  {
    TransitionMatrixEntries(1.0);
    MatrixExtensionality(Identity(StateSize), TransitionMatrix(1.0), StateSize, StateSize);
  }

  /** Writing `dT` at (2,2) and (3,3) of any transition matrix gives that of `dT`. */
  lemma RewriteTimeStep(d: real, dT: real)
    ensures SetEntry(SetEntry(TransitionMatrix(d), 2, 2, dT), 3, 3, dT) == TransitionMatrix(dT)
  {
    var a := SetEntry(SetEntry(TransitionMatrix(d), 2, 2, dT), 3, 3, dT);
    TransitionMatrixEntries(d);
    TransitionMatrixEntries(dT);
    MatrixExtensionality(a, TransitionMatrix(dT), StateSize, StateSize);
  }

  // ---------------------------------------------------------------------
  // Filter state and the library operations
  // ---------------------------------------------------------------------

  /** The parts of `kf` that change after the configuration. */
  datatype FilterState = FilterState(
    statePre: Vector6,
    statePost: Vector6,
    errorCovPre: Matrix6,
    errorCovPost: Matrix6,
    transitionMatrix: Matrix6)

  /** The transition matrix is always the identity with one time step on (2,2) and (3,3). */
  predicate WellFormed(f: FilterState)
  {
    f.transitionMatrix == TransitionMatrix(f.transitionMatrix[2][2])
  }

  /** A freshly created filter: zero states and covariances, identity transition (line 19). */
  function InitialFilter(): (f: FilterState)
    ensures WellFormed(f)
  {
    IdentityIsUnitStep();
    FilterState(ZeroVector(StateSize), ZeroVector(StateSize), Zeros(StateSize, StateSize),
                Zeros(StateSize, StateSize), Identity(StateSize))
  }

  /** Lines 139-140: `dT` written on the diagonal entries (2,2) and (3,3). */
  function WithTimeStep(f: FilterState, dT: real): (r: FilterState)
    requires WellFormed(f)
    ensures WellFormed(r) && r.transitionMatrix == TransitionMatrix(dT)
    ensures r == f.(transitionMatrix := TransitionMatrix(dT))
  {
    RewriteTimeStep(f.transitionMatrix[2][2], dT);
    f.(transitionMatrix := SetEntry(SetEntry(f.transitionMatrix, 2, 2, dT), 3, 3, dT))
  }

  /**
   * `kf.predict()`: statePre = F statePost, errorCovPre = F errorCovPost F^T + Q,
   * and both are copied into the posterior for a frame without a measurement.
   */
  function Predicted(f: FilterState): (r: FilterState)
    requires WellFormed(f)
    ensures WellFormed(r)
  {
    var fm := f.transitionMatrix;
    var pre := MatVec(fm, f.statePost);
    var temp1 := MatMul(fm, f.errorCovPost, StateSize, StateSize, StateSize);
    var covPre := MatAdd(MatMul(temp1, Transpose(fm, StateSize, StateSize), StateSize, StateSize, StateSize),
                         ProcessNoiseCov(), StateSize, StateSize);
    FilterState(pre, pre, covPre, covPre, fm)
  }

  /** The innovation of `correct`: the measurement minus H statePre. */
  function Innovation(f: FilterState, z: Vector4): (y: Vector4)
  {
    VecSub(z, MatVec(MeasurementMatrix(), f.statePre))
  }

  /**
   * `kf.correct(z)` with gain K: statePost = statePre + K (z - H statePre),
   * errorCovPost = errorCovPre - K H errorCovPre. The prior is untouched.
   */
  function Corrected(f: FilterState, z: Vector4, gain: Gain): (r: FilterState)
    requires WellFormed(f)
    ensures WellFormed(r)
  {
    var temp2 := MatMul(MeasurementMatrix(), f.errorCovPre, MeasSize, StateSize, StateSize);
    f.(statePost := VecAdd(f.statePre, MatVec(gain, Innovation(f, z))),
       errorCovPost := MatSub(f.errorCovPre, MatMul(gain, temp2, StateSize, MeasSize, StateSize), StateSize, StateSize))
  }

  /** Lines 184-192: errorCovPre := I and statePost := [z0, z1, 0, 0, z2, z3]. */
  function Reinitialised(f: FilterState, z: Vector4): (r: FilterState)
    requires WellFormed(f)
    ensures WellFormed(r)
  {
    f.(errorCovPre := Identity(StateSize), statePost := [z[0], z[1], 0.0, 0.0, z[2], z[3]])
  }

  /**
   * A prediction keeps the posterior position and size and scales the
   * velocity by the time step: the filter never moves the position.
   */
  lemma PredictKeepsPosition(f: FilterState)
    requires WellFormed(f)
    ensures var pre, post := Predicted(f).statePre, f.statePost;
            pre[0] == post[0] && pre[1] == post[1] && pre[4] == post[4] && pre[5] == post[5]
    ensures var pre, post, d := Predicted(f).statePre, f.statePost, f.transitionMatrix[2][2];
            pre[2] == d * post[2] && pre[3] == d * post[3]
    ensures Predicted(f).statePost == Predicted(f).statePre
  {
    var d, s := f.transitionMatrix[2][2], f.statePost;
    TransitionApply(d, s);
    assert MatVec(f.transitionMatrix, s) == [s[0], s[1], d * s[2], d * s[3], s[4], s[5]];
  }

  /** The prior covariance a prediction produces does not depend on the previous prior. */
  lemma PredictIgnoresPrior(f: FilterState, p: Matrix6)
    requires WellFormed(f)
    ensures Predicted(f.(errorCovPre := p)) == Predicted(f)
  {
  }

  /** The innovation compares x, y with the position and both w and h with the size entries. */
  lemma InnovationEntries(f: FilterState, z: Vector4)
    ensures var s := f.statePre;
            Innovation(f, z) == [z[0] - s[0], z[1] - s[1], z[2] - s[4], z[3] - s[5]]
  {
    ObserveSelects(f.statePre);
  }

  /** A measurement that equals the predicted observation leaves the state at the prediction, whatever the gain. */
  lemma CorrectAtPrediction(f: FilterState, gain: Gain)
    requires WellFormed(f)
    ensures var s := f.statePre;
            Corrected(f, [s[0], s[1], s[4], s[5]], gain).statePost == s
  {
    var s := f.statePre;
    var z: Vector4 := [s[0], s[1], s[4], s[5]];
    InnovationEntries(f, z);
    var y := Innovation(f, z);
    assert forall j :: 0 <= j < MeasSize ==> y[j] == 0.0;
    MatVecZero(gain, y);
    assert VecAdd(s, MatVec(gain, y)) == s;
  }

  /** `correct` only writes the posterior state and covariance. */
  lemma CorrectKeepsPrior(f: FilterState, z: Vector4, gain: Gain)
    requires WellFormed(f)
    ensures var r := Corrected(f, z, gain);
            r.statePre == f.statePre && r.errorCovPre == f.errorCovPre && r.transitionMatrix == f.transitionMatrix
  {
  }

  /**
   * The filter object. The configuration matrices are written once, when
   * the object is set up; the rest changes through the operations below
   * and through the tracker's direct writes to `statePost` and
   * `errorCovPre`.
   */
  class KalmanFilter {
    var statePre: Vector6
    var statePost: Vector6
    var errorCovPre: Matrix6
    var errorCovPost: Matrix6
    var transitionMatrix: Matrix6
    const measurementMatrix: Matrix
    const processNoiseCov: Matrix
    const measurementNoiseCov: Matrix

    ghost predicate Valid()
      reads this
    {
      && WellFormed(State())
      && measurementMatrix == MeasurementMatrix()
      && processNoiseCov == ProcessNoiseCov()
      && measurementNoiseCov == MeasurementNoiseCov()
    }

    function State(): FilterState
      reads this
    {
      FilterState(statePre, statePost, errorCovPre, errorCovPost, transitionMatrix)
    }

    /** `cv2.KalmanFilter(6, 4, 0)` followed by the configuration of lines 19-37. */
    constructor ()
      ensures Valid() && State() == InitialFilter()
    {
      IdentityIsUnitStep();
      statePre := ZeroVector(StateSize);
      statePost := ZeroVector(StateSize);
      errorCovPre := Zeros(StateSize, StateSize);
      errorCovPost := Zeros(StateSize, StateSize);
      transitionMatrix := Identity(StateSize);
      measurementMatrix := MeasurementMatrix();
      processNoiseCov := ProcessNoiseCov();
      measurementNoiseCov := MeasurementNoiseCov();
    }

    /** Lines 139-140. */
    method SetTimeStep(dT: real)
      requires Valid()
      modifies this
      ensures Valid() && State() == WithTimeStep(old(State()), dT)
    {
      RewriteTimeStep(transitionMatrix[2][2], dT);
      transitionMatrix := SetEntry(transitionMatrix, 2, 2, dT);
      transitionMatrix := SetEntry(transitionMatrix, 3, 3, dT);
    }

    /** `kf.predict()`, returning the a-priori state. */
    method Predict() returns (s: Vector6)
      requires Valid()
      modifies this
      ensures Valid() && State() == Predicted(old(State()))
      ensures s == statePre
    {
      statePre := MatVec(transitionMatrix, statePost);
      var temp1 := MatMul(transitionMatrix, errorCovPost, StateSize, StateSize, StateSize);
      errorCovPre := MatAdd(MatMul(temp1, Transpose(transitionMatrix, StateSize, StateSize), StateSize, StateSize, StateSize),
                            processNoiseCov, StateSize, StateSize);
      statePost := statePre;
      errorCovPost := errorCovPre;
      s := statePre;
    }

    /** `kf.correct(z)`, with the gain the library derives from errorCovPre and R. */
    method Correct(z: Vector4, gain: Gain) returns (s: Vector6)
      requires Valid()
      modifies this
      ensures Valid() && State() == Corrected(old(State()), z, gain)
      ensures s == statePost
    {
      var temp2 := MatMul(measurementMatrix, errorCovPre, MeasSize, StateSize, StateSize);
      var innovation := VecSub(z, MatVec(measurementMatrix, statePre));
      statePost := VecAdd(statePre, MatVec(gain, innovation));
      errorCovPost := MatSub(errorCovPre, MatMul(gain, temp2, StateSize, MeasSize, StateSize), StateSize, StateSize);
      s := statePost;
    }
  }
}
