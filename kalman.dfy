/**
 * The one-axis angle/gyro-bias Kalman filter (class `Kalman`, method `getAngle`).
 *
 * `KalmanState` is the filter's state as a value; `Predict`, `Correct` and
 * `Step` are the two halves of `getAngle` and their composition.  The class
 * keeps the 2x2 covariance in an array and is proved to follow `Step`.
 */
module Kalman {

  datatype Noise = Noise(qAngle: real, qGyroBias: real, rMeasure: real)

  /** The error covariance, row by row. */
  datatype Cov = Cov(p00: real, p01: real, p10: real, p11: real)

  datatype KalmanState = KalmanState(noise: Noise, p: Cov, bias: real, rate: real, angle: real)

  /** The noise constants the constructor sets. */
  const DefaultNoise: Noise := Noise(0.001, 0.003, 0.0003)

  /** The constructor: default noise, zero covariance, zero bias, rate and angle. */
  function Initial(): (s: KalmanState)
    ensures s.noise == DefaultNoise
    ensures s.p == Cov(0.0, 0.0, 0.0, 0.0)
    ensures s.bias == 0.0 && s.rate == 0.0 && s.angle == 0.0
  {
    KalmanState(DefaultNoise, Cov(0.0, 0.0, 0.0, 0.0), 0.0, 0.0, 0.0)
  }

  /** The time update: propagate the angle by the bias-corrected rate and grow the covariance. */
  function Predict(s: KalmanState, newRate: real, dt: real): (r: KalmanState)
    ensures r.noise == s.noise && r.bias == s.bias
    ensures r.rate == newRate - s.bias
    ensures r.angle == s.angle + dt * r.rate
  {
    var rate := newRate - s.bias;
    var p := s.p;
    var p00 := p.p00 + dt * (dt * p.p11 - p.p01 - p.p10 + s.noise.qAngle);
    var p01 := p.p01 - dt * p.p11;
    var p10 := p.p10 - dt * p.p11;
    var p11 := p.p11 + s.noise.qGyroBias * dt;
    s.(rate := rate, angle := s.angle + dt * rate, p := Cov(p00, p01, p10, p11))
  }

  /** `Predict` assembled from its separately computed parts; it only reassembles the body. */
  lemma PredictFromParts(s: KalmanState, newRate: real, dt: real, rate: real, angle: real,
                         p00: real, p01: real, p10: real, p11: real)
    requires rate == newRate - s.bias && angle == s.angle + dt * rate
    requires p00 == s.p.p00 + dt * (dt * s.p.p11 - s.p.p01 - s.p.p10 + s.noise.qAngle)
    requires p01 == s.p.p01 - dt * s.p.p11 && p10 == s.p.p10 - dt * s.p.p11
    requires p11 == s.p.p11 + s.noise.qGyroBias * dt
    ensures Predict(s, newRate, dt) == s.(rate := rate, angle := angle, p := Cov(p00, p01, p10, p11))
  {
  }

  /** The innovation variance S of the measurement update. */
  function InnovationVariance(s: KalmanState): (v: real)
    ensures v - s.noise.rMeasure == s.p.p00
  {
    s.p.p00 + s.noise.rMeasure
  }

  /** S as it will be after `Predict` with interval `dt` (it does not depend on the rate). */
  function PredictedVariance(s: KalmanState, dt: real): (v: real)
    ensures forall newRate: real :: v == InnovationVariance(Predict(s, newRate, dt))
  {
    s.p.p00 + dt * (dt * s.p.p11 - s.p.p01 - s.p.p10 + s.noise.qAngle) + s.noise.rMeasure
  }

  /** The Kalman gains K0 = P00/S and K1 = P10/S. */
  function Gain0(s: KalmanState): (k: real)
    requires InnovationVariance(s) != 0.0
    ensures k * InnovationVariance(s) == s.p.p00
  {
    s.p.p00 / InnovationVariance(s)
  }

  /** K1 = P10/S. */
  function Gain1(s: KalmanState): (k: real)
    requires InnovationVariance(s) != 0.0
    ensures k * InnovationVariance(s) == s.p.p10
  {
    s.p.p10 / InnovationVariance(s)
  }

  /** The measurement update with the accelerometer angle `newAngle`. */
  function Correct(s: KalmanState, newAngle: real): (r: KalmanState)
    requires InnovationVariance(s) != 0.0
    ensures r.noise == s.noise && r.rate == s.rate
    ensures r.angle == s.angle + Gain0(s) * (newAngle - s.angle)
    ensures r.bias == s.bias + Gain1(s) * (newAngle - s.angle)
  {
    var k0 := Gain0(s);
    var k1 := Gain1(s);
    var y := newAngle - s.angle;
    var p := s.p;
    s.(angle := s.angle + k0 * y, bias := s.bias + k1 * y,
       p := Cov(p.p00 - k0 * p.p00, p.p01 - k0 * p.p01, p.p10 - k1 * p.p00, p.p11 - k1 * p.p01))
  }

  /** One call of `getAngle(newAngle, newRate, dt)`: predict, then correct. */
  function Step(s: KalmanState, newAngle: real, newRate: real, dt: real): (r: KalmanState)
    requires PredictedVariance(s, dt) != 0.0
    ensures r.noise == s.noise
  {
    Correct(Predict(s, newRate, dt), newAngle)
  }

  /** A symmetric covariance that is positive semidefinite. */
  predicate Psd(p: Cov) {
    p.p01 == p.p10 && p.p00 >= 0.0 && p.p11 >= 0.0 && p.p00 * p.p11 - p.p01 * p.p10 >= 0.0
  }

  /** Non-negative process noise, positive measurement noise, a covariance that is PSD. */
  predicate Healthy(s: KalmanState) {
    s.noise.qAngle >= 0.0 && s.noise.qGyroBias >= 0.0 && s.noise.rMeasure > 0.0 && Psd(s.p)
  }

  /** For a healthy filter S is at least R, and the angle gain K0 lies in [0, 1). */
  lemma HealthyGainBounds(s: KalmanState)
    requires Healthy(s)
    ensures InnovationVariance(s) >= s.noise.rMeasure > 0.0
    ensures 0.0 <= Gain0(s) < 1.0
  {
    var v := InnovationVariance(s);
    assert Gain0(s) * v == s.p.p00 < v;
  }

  lemma InitialHealthy()
    ensures Healthy(Initial())
  {
  }

  /** With dt = 0 the time update keeps the angle and the covariance. */
  lemma PredictZeroDt(s: KalmanState, newRate: real)
    ensures Predict(s, newRate, 0.0).angle == s.angle
    ensures Predict(s, newRate, 0.0).p == s.p
  {
  }

  /** A symmetric covariance stays symmetric through a whole step. */
  lemma StepKeepsSymmetry(s: KalmanState, newAngle: real, newRate: real, dt: real)
    requires PredictedVariance(s, dt) != 0.0
    requires s.p.p01 == s.p.p10
    ensures Step(s, newAngle, newRate, dt).p.p01 == Step(s, newAngle, newRate, dt).p.p10
  {
    var q := Predict(s, newRate, dt);
    assert q.p.p01 == q.p.p10;
  }

  /** A measurement equal to the predicted angle leaves angle and bias at their predicted values. */
  lemma ZeroInnovationFixed(s: KalmanState, newRate: real, dt: real)
    requires PredictedVariance(s, dt) != 0.0
    ensures var q := Predict(s, newRate, dt);
      var r := Step(s, q.angle, newRate, dt);
      r.angle == q.angle && r.bias == s.bias
  {
  }

  /** For a PSD covariance, P00 - 2 dt P01 + dt^2 P11 is not negative. */
  lemma QuadraticFormNonNegative(p: Cov, dt: real)
    requires Psd(p)
    ensures p.p00 - 2.0 * dt * p.p01 + dt * dt * p.p11 >= 0.0
  {
    var q := p.p00 - 2.0 * dt * p.p01 + dt * dt * p.p11;
    if p.p00 == 0.0 {
      assert p.p01 * p.p01 <= 0.0;
      assert p.p01 == 0.0;
      assert q == dt * dt * p.p11;
    } else {
      var a := p.p00 - dt * p.p01;
      assert p.p00 * q == a * a + dt * dt * (p.p00 * p.p11 - p.p01 * p.p01);
      assert p.p00 * q >= 0.0;
    }
  }

  /** A healthy filter stepped forward in time has S >= R > 0, so the gains exist. */
  lemma HealthyVariancePositive(s: KalmanState, dt: real)
    requires Healthy(s) && dt >= 0.0
    ensures PredictedVariance(s, dt) >= s.noise.rMeasure > 0.0
  {
    QuadraticFormNonNegative(s.p, dt);
    assert PredictedVariance(s, dt) ==
      (s.p.p00 - 2.0 * dt * s.p.p01 + dt * dt * s.p.p11) + dt * s.noise.qAngle + s.noise.rMeasure;
  }

  /** The time update keeps a healthy filter healthy when dt is not negative. */
  lemma PredictKeepsHealthy(s: KalmanState, newRate: real, dt: real)
    requires Healthy(s) && dt >= 0.0
    ensures Healthy(Predict(s, newRate, dt))
  {
    var p := s.p;
    var c := Predict(s, newRate, dt).p;
    QuadraticFormNonNegative(p, dt);
    var a00 := p.p00 - 2.0 * dt * p.p01 + dt * dt * p.p11;
    var a01 := p.p01 - dt * p.p11;
    assert c.p00 == a00 + dt * s.noise.qAngle;
    assert c.p11 == p.p11 + dt * s.noise.qGyroBias;
    // F P F^T has the determinant of P, since F = [[1, -dt], [0, 1]].
    assert a00 * p.p11 - a01 * a01 == p.p00 * p.p11 - p.p01 * p.p01;
    var d0 := dt * s.noise.qAngle;
    var d1 := dt * s.noise.qGyroBias;
    assert d0 >= 0.0 && d1 >= 0.0;
    assert c.p00 * c.p11 - c.p01 * c.p10 ==
      (a00 * p.p11 - a01 * a01) + d0 * p.p11 + d1 * a00 + d0 * d1;
  }

  /** The measurement update keeps a healthy filter healthy. */
  lemma CorrectKeepsHealthy(s: KalmanState, newAngle: real)
    requires Healthy(s)
    ensures InnovationVariance(s) > 0.0
    ensures Healthy(Correct(s, newAngle))
  {
    var p := s.p;
    var R := s.noise.rMeasure;
    var S := InnovationVariance(s);
    var c := Correct(s, newAngle).p;
    var k0 := Gain0(s);
    assert k0 * S == p.p00;
    assert c.p00 == p.p00 * R / S by {
      assert c.p00 * S == p.p00 * S - p.p00 * p.p00;
    }
    assert c.p01 == p.p01 * R / S by {
      assert c.p01 * S == p.p01 * S - p.p00 * p.p01;
    }
    assert c.p10 == c.p01;
    assert c.p11 * S == p.p11 * S - p.p01 * p.p01;
    assert c.p11 >= 0.0 by {
      assert p.p11 * S - p.p01 * p.p01 == (p.p00 * p.p11 - p.p01 * p.p01) + p.p11 * R;
    }
    assert (c.p00 * c.p11 - c.p01 * c.p10) * S * S == R * S * (p.p00 * p.p11 - p.p01 * p.p01);
  }

  /**
   * The whole step keeps a healthy filter healthy; with dt >= 0 its variance
   * S is positive, so the step's precondition holds.
   */
  lemma StepKeepsHealthy(s: KalmanState, newAngle: real, newRate: real, dt: real)
    requires Healthy(s) && dt >= 0.0
    ensures PredictedVariance(s, dt) > 0.0
    ensures Healthy(Step(s, newAngle, newRate, dt))
  {
    HealthyVariancePositive(s, dt);
    PredictKeepsHealthy(s, newRate, dt);
    CorrectKeepsHealthy(Predict(s, newRate, dt), newAngle);
  }

  /** The corrected angle lies between the predicted angle and the measurement. */
  lemma CorrectedAngleBetween(s: KalmanState, newAngle: real)
    requires Healthy(s)
    ensures InnovationVariance(s) > 0.0
    ensures var a := Correct(s, newAngle).angle;
      (s.angle <= newAngle ==> s.angle <= a <= newAngle) &&
      (newAngle <= s.angle ==> newAngle <= a <= s.angle)
  {
    var k0 := Gain0(s);
    assert 0.0 <= k0 <= 1.0 by {
      assert k0 * InnovationVariance(s) == s.p.p00;
    }
    var y := newAngle - s.angle;
    if y >= 0.0 {
      assert 0.0 <= k0 * y <= y;
    } else {
      assert y <= k0 * y <= 0.0;
    }
  }

  class Kalman {
    var qAngle: real
    var qGyroBias: real
    var rMeasure: real
    const P: array2<real>
    var bias: real
    var rate: real
    var angle: real

    ghost predicate Valid()
      reads this
    {
      P.Length0 == 2 && P.Length1 == 2
    }

    function State(): KalmanState
      reads this, P
      requires Valid()
    {
      KalmanState(Noise(qAngle, qGyroBias, rMeasure),
                  Cov(P[0, 0], P[0, 1], P[1, 0], P[1, 1]), bias, rate, angle)
    }

    constructor ()
      ensures Valid() && fresh(P) && State() == Initial()
    {
      qAngle := 0.001;
      qGyroBias := 0.003;
      rMeasure := 0.0003;
      P := new real[2, 2]((i, j) => 0.0);
      bias := 0.0;
      rate := 0.0;
      angle := 0.0;
    }

    /** `getAngle`: angle in degrees, rate in degrees per second, dt in seconds. */
    method GetAngle(newAngle: real, newRate: real, dt: real) returns (r: real)
      requires Valid() && PredictedVariance(State(), dt) != 0.0
      modifies this, P
      ensures Valid()
      ensures State() == Step(old(State()), newAngle, newRate, dt)
      ensures r == angle
    {
      TimeUpdate(newRate, dt);
      MeasurementUpdate(newAngle);
      r := angle;
    }

    /** Steps 1 and 2 of `getAngle`: project the state and the error covariance ahead. */
    method TimeUpdate(newRate: real, dt: real)
      requires Valid()
      modifies this, P
      ensures Valid() && State() == Predict(old(State()), newRate, dt)
    {
      ghost var s := State();
      rate := newRate - bias;
      angle := angle + dt * rate;

      // Each entry is read before it is overwritten, so the old values can be read up front
      var p00, p01, p10, p11 := P[0, 0], P[0, 1], P[1, 0], P[1, 1];
      P[0, 0] := p00 + dt * (dt * p11 - p01 - p10 + qAngle);
      P[0, 1] := p01 - dt * p11;
      P[1, 0] := p10 - dt * p11;
      P[1, 1] := p11 + qGyroBias * dt;
      PredictFromParts(s, newRate, dt, rate, angle, P[0, 0], P[0, 1], P[1, 0], P[1, 1]);
    }

    /** Steps 3 to 7 of `getAngle`: the gain, the corrected estimate and covariance. */
    method MeasurementUpdate(newAngle: real)
      requires Valid() && InnovationVariance(State()) != 0.0
      modifies this, P
      ensures Valid() && State() == Correct(old(State()), newAngle)
    {
      var S := P[0, 0] + rMeasure;
      var K0 := P[0, 0] / S;
      var K1 := P[1, 0] / S;

      var y := newAngle - angle;
      angle := angle + K0 * y;
      bias := bias + K1 * y;

      var P00Temp := P[0, 0];
      var P01Temp := P[0, 1];
      P[0, 0] := P[0, 0] - K0 * P00Temp;
      P[0, 1] := P[0, 1] - K0 * P01Temp;
      P[1, 0] := P[1, 0] - K1 * P00Temp;
      P[1, 1] := P[1, 1] - K1 * P01Temp;
    }
  }
}
