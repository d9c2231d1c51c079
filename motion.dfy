/**
 * The constant-velocity motion model of a track: the seven-component state
 * [x, y, w, h, vx, vy, vw] of the Kalman filter built by `Track.create_kf`,
 * its transition F, its read-out H, and the integer box read back after a
 * prediction. Only the mean's transition is modelled exactly; the covariance
 * propagation and the measurement correction are supplied by an Estimator.
 */
module Motion {
  import opened Geometry

  /** Position, size, and the velocities of x, y and w (height has no velocity). */
  datatype StateVec = StateVec(x: real, y: real, w: real, h: real, vx: real, vy: real, vw: real)

  type Matrix = seq<seq<real>>

  /** The filter's mean and covariance. */
  datatype Filter = Filter(mean: StateVec, cov: Matrix)

  /**
   * The parts of the linear-Gaussian filter that are left abstract: the
   * covariance step of a prediction (P := F P F^T + Q) and the whole
   * measurement update (gain, innovation, correction of mean and covariance).
   */
  datatype Estimator = Estimator(propagate: Matrix -> Matrix, correct: (Filter, Box) -> Filter)

  /** F of `create_kf`: x, y and w gain vx, vy and vw; h and the velocities stay. */
  const TransitionMatrix: Matrix := [
    [1.0, 0.0, 0.0, 0.0, 1.0, 0.0, 0.0],
    [0.0, 1.0, 0.0, 0.0, 0.0, 1.0, 0.0],
    [0.0, 0.0, 1.0, 0.0, 0.0, 0.0, 1.0],
    [0.0, 0.0, 0.0, 1.0, 0.0, 0.0, 0.0],
    [0.0, 0.0, 0.0, 0.0, 1.0, 0.0, 0.0],
    [0.0, 0.0, 0.0, 0.0, 0.0, 1.0, 0.0],
    [0.0, 0.0, 0.0, 0.0, 0.0, 0.0, 1.0]
  ]

  /** H of `create_kf`: the measurement is the first four state components. */
  const ObservationMatrix: Matrix := [
    [1.0, 0.0, 0.0, 0.0, 0.0, 0.0, 0.0],
    [0.0, 1.0, 0.0, 0.0, 0.0, 0.0, 0.0],
    [0.0, 0.0, 1.0, 0.0, 0.0, 0.0, 0.0],
    [0.0, 0.0, 0.0, 1.0, 0.0, 0.0, 0.0]
  ]

  /** Scale of the initial covariance (P *= 10 on an identity P). */
  const InitialUncertainty: real := 10.0

  function AsVector(v: StateVec): seq<real> { [v.x, v.y, v.w, v.h, v.vx, v.vy, v.vw] }

  function Dot(a: seq<real>, b: seq<real>): real
    requires |a| == |b|
    decreases |a|
  {
    if a == [] then 0.0 else a[0] * b[0] + Dot(a[1..], b[1..])
  }

  function Apply(m: Matrix, v: seq<real>): (r: seq<real>)
    requires forall i :: 0 <= i < |m| ==> |m[i]| == |v|
    ensures |r| == |m|
  {
    seq(|m|, i requires 0 <= i < |m| => Dot(m[i], v))
  }

  function ScaledIdentity(n: nat, s: real): (m: Matrix)
    ensures |m| == n && forall i :: 0 <= i < n ==> |m[i]| == n
  {
    seq(n, i requires 0 <= i < n => seq(n, j requires 0 <= j < n => if i == j then s else 0.0))
  }

  /** The mean step of a prediction: F applied to the state. */
  function Transition(v: StateVec): StateVec
  {
    StateVec(v.x + v.vx, v.y + v.vy, v.w + v.vw, v.h, v.vx, v.vy, v.vw)
  }

  /** The filter made for a new box: position and size from the box, zero velocities. */
  function Initial(box: Box): Filter
  {
    Filter(StateVec(box.x as real, box.y as real, box.w as real, box.h as real, 0.0, 0.0, 0.0),
           ScaledIdentity(7, InitialUncertainty))
  }

  function Predict(f: Filter, est: Estimator): Filter
  {
    Filter(Transition(f.mean), est.propagate(f.cov))
  }

  /** Python's `int()` on a float: truncation toward zero. */
  function Trunc(r: real): (n: int)
    ensures r >= 0.0 ==> 0 <= n && n as real <= r < n as real + 1.0
    ensures r < 0.0 ==> n <= 0 && n as real - 1.0 < r <= n as real
  {
    if r >= 0.0 then r.Floor else -((-r).Floor)
  }

  /** The integer box read from the first four state components. */
  function Readout(v: StateVec): Box
  {
    Box(Trunc(v.x), Trunc(v.y), Trunc(v.w), Trunc(v.h))
  }

  /** A dot product of two seven-vectors, written out term by term. */
  lemma DotSeven(a: seq<real>, b: seq<real>)
    requires |a| == |b| == 7
    ensures Dot(a, b) == a[0] * b[0] + a[1] * b[1] + a[2] * b[2] + a[3] * b[3]
                         + a[4] * b[4] + a[5] * b[5] + a[6] * b[6]
  {
    assert Dot(a[6..], b[6..]) == a[6] * b[6] + Dot(a[7..], b[7..]);
    assert Dot(a[5..], b[5..]) == a[5] * b[5] + Dot(a[6..], b[6..]);
    assert Dot(a[4..], b[4..]) == a[4] * b[4] + Dot(a[5..], b[5..]);
    assert Dot(a[3..], b[3..]) == a[3] * b[3] + Dot(a[4..], b[4..]);
    assert Dot(a[2..], b[2..]) == a[2] * b[2] + Dot(a[3..], b[3..]);
    assert Dot(a[1..], b[1..]) == a[1] * b[1] + Dot(a[2..], b[2..]);
  }

  lemma TransitionIsF(v: StateVec)
    ensures Apply(TransitionMatrix, AsVector(v)) == AsVector(Transition(v))
  {
    var u := AsVector(v);
    DotSeven(TransitionMatrix[0], u);
    DotSeven(TransitionMatrix[1], u);
    DotSeven(TransitionMatrix[2], u);
    DotSeven(TransitionMatrix[3], u);
    DotSeven(TransitionMatrix[4], u);
    DotSeven(TransitionMatrix[5], u);
    DotSeven(TransitionMatrix[6], u);
    var r := Apply(TransitionMatrix, u);
    assert r[0] == v.x + v.vx;
    assert r[1] == v.y + v.vy;
    assert r[2] == v.w + v.vw;
    assert r[3] == v.h;
    assert r[4] == v.vx;
    assert r[5] == v.vy;
    assert r[6] == v.vw;
  }

  lemma ObservationIsH(v: StateVec)
    ensures Apply(ObservationMatrix, AsVector(v)) == [v.x, v.y, v.w, v.h]
  {
  }

  lemma TruncWhole(n: int)
    ensures Trunc(n as real) == n
  {
  }

  /** A fresh filter has zero velocity, so its first prediction reads back the box it was made from. */
  lemma FirstPredictKeepsBox(box: Box, est: Estimator)
    ensures Readout(Predict(Initial(box), est).mean) == box
  {
    TruncWhole(box.x);
    TruncWhole(box.y);
    TruncWhole(box.w);
    TruncWhole(box.h);
  }
}
