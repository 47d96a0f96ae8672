/**
 * The attitude wrapper (class `Attitude`): unit conversions and the raw branch
 * of `getAttitude`, which runs one Kalman filter for pitch and one for roll
 * and integrates yaw from the gyro with a constant drift rate.
 *
 * The clock is the parameter `now` (milliseconds), the raw sample is a
 * parameter, and `atan2` is a parameter the caller supplies.
 */
module Attitude {
  import opened Wrappers
  import Kalman

  const MPi: real := 3.14159265359
  /** Raw accelerometer counts per g. */
  const AccelConvert: real := 16384.0
  /** Raw gyro counts per degree per second. */
  const GyroConvert: real := 16.4
  /** Degrees per second added to the yaw integral on every call. */
  const YawDriftRate: real := 2.6

  /** The two-argument arc tangent the source takes from its math library. */
  type Atan2 = (real, real) -> real

  /** One raw reading of the motion sensor, in counts. */
  datatype RawMotion = RawMotion(gyroX: int, gyroY: int, gyroZ: int,
                                 accelX: int, accelY: int, accelZ: int)

  /** The record `getAttitude` returns, in degrees. */
  datatype Motion = Motion(pitch: real, roll: real, yaw: real)

  function ToDegree(radian: real): (d: real)
    ensures d * MPi == radian * 180.0
  {
    radian * (180.0 / MPi)
  }

  function ToRadian(degree: real): (r: real)
    ensures r * 180.0 == degree * MPi
  {
    degree * (MPi / 180.0)
  }

  /** Degrees and radians convert back and forth without loss. */
  lemma DegreeRadianRoundTrip(x: real)
    ensures ToRadian(ToDegree(x)) == x
    ensures ToDegree(ToRadian(x)) == x
  {
  }

  /** Raw gyro counts to degrees per second. */
  function GyroToDegree(raw: real): (d: real)
    ensures d * GyroConvert == raw
  {
    raw / GyroConvert
  }

  /** Raw accelerometer counts to g. */
  function AccelToDegree(raw: real): (g: real)
    ensures g * AccelConvert == raw
  {
    raw / AccelConvert
  }

  /** The accelerometer roll angle (y against z) in degrees. */
  function GetAccY(atan2: Atan2, accelY: real, accelZ: real): (d: real)
    ensures d * MPi == atan2(accelY, accelZ) * 180.0
  {
    ToDegree(atan2(accelY, accelZ))
  }

  /** The accelerometer pitch angle (x against z) in degrees. */
  function GetAccX(atan2: Atan2, accelX: real, accelZ: real): (d: real)
    ensures d * MPi == atan2(accelX, accelZ) * 180.0
  {
    ToDegree(atan2(accelX, accelZ))
  }

  /** The wrapper's state: `lastTime` and `y` start undefined, then hold numbers. */
  datatype AttitudeState = AttitudeState(lastTime: Option<real>, y: Option<real>,
                                         kx: Kalman.KalmanState, ky: Kalman.KalmanState,
                                         kz: Kalman.KalmanState)

  datatype AttitudeResult = AttitudeResult(state: AttitudeState, motion: Motion)

  function Initial(): (s: AttitudeState)
    ensures s.lastTime.None? && s.y.None?
    ensures s.kx == s.ky == s.kz == Kalman.Initial()
  {
    AttitudeState(None, None, Kalman.Initial(), Kalman.Initial(), Kalman.Initial())
  }

  /** The interval in seconds since the previous call; 0 on the first call. */
  function Interval(s: AttitudeState, now: real): (dt: real)
    ensures s.lastTime.None? ==> dt == 0.0
    ensures s.lastTime.Some? ==> dt == (now - s.lastTime.value) / 1000.0
    ensures ClockOk(s, now) ==> dt >= 0.0
  {
    var last := if s.lastTime.None? then now else s.lastTime.value;
    (now - last) / 1000.0
  }

  /** Both filters can be stepped: their innovation variances are nonzero. */
  predicate Ready(s: AttitudeState, now: real) {
    Kalman.PredictedVariance(s.kx, Interval(s, now)) != 0.0 &&
    Kalman.PredictedVariance(s.ky, Interval(s, now)) != 0.0
  }

  /** The invariant the wrapper keeps: both filters in use are healthy. */
  predicate Healthy(s: AttitudeState) {
    Kalman.Healthy(s.kx) && Kalman.Healthy(s.ky)
  }

  /** The clock has not gone backwards since the previous call. */
  predicate ClockOk(s: AttitudeState, now: real) {
    s.lastTime.None? || s.lastTime.value <= now
  }

  /** The raw branch of `getAttitude`, with the measured interval `dt` in seconds. */
  function StepWith(s: AttitudeState, dt: real, now: real, m: RawMotion, atan2: Atan2): (r: AttitudeResult)
    requires Kalman.PredictedVariance(s.kx, dt) != 0.0 && Kalman.PredictedVariance(s.ky, dt) != 0.0
    ensures r.state.lastTime == Some(now)
    ensures r.state.kz == s.kz
  {
    var y0 := if s.y.None? then 0.0 else s.y.value;
    var kx := Kalman.Step(s.kx, GetAccX(atan2, m.accelX as real, m.accelZ as real),
                          GyroToDegree(m.gyroX as real), dt);
    var ky := Kalman.Step(s.ky, GetAccY(atan2, m.accelY as real, m.accelZ as real),
                          GyroToDegree(m.gyroY as real), dt);
    var y := y0 + (GyroToDegree(m.gyroZ as real) + YawDriftRate) * dt;
    AttitudeResult(AttitudeState(Some(now), Some(y), kx, ky, s.kz),
                   Motion(kx.angle, ky.angle, y))
  }

  /** `StepWith` assembled from its two filter steps and its new yaw integral; it only reassembles the body. */
  lemma StepWithFromParts(s: AttitudeState, dt: real, now: real, m: RawMotion, atan2: Atan2,
                          kx: Kalman.KalmanState, ky: Kalman.KalmanState, y: real)
    requires Kalman.PredictedVariance(s.kx, dt) != 0.0 && Kalman.PredictedVariance(s.ky, dt) != 0.0
    requires kx == Kalman.Step(s.kx, GetAccX(atan2, m.accelX as real, m.accelZ as real),
                               GyroToDegree(m.gyroX as real), dt)
    requires ky == Kalman.Step(s.ky, GetAccY(atan2, m.accelY as real, m.accelZ as real),
                               GyroToDegree(m.gyroY as real), dt)
    requires y == (if s.y.None? then 0.0 else s.y.value) + (GyroToDegree(m.gyroZ as real) + YawDriftRate) * dt
    ensures StepWith(s, dt, now, m, atan2)
         == AttitudeResult(AttitudeState(Some(now), Some(y), kx, ky, s.kz), Motion(kx.angle, ky.angle, y))
  {
    var r := StepWith(s, dt, now, m, atan2);
    var y0 := if s.y.None? then 0.0 else s.y.value;
    var yaw := y0 + (GyroToDegree(m.gyroZ as real) + YawDriftRate) * dt;
    assert yaw == y;
    assert r.state.kx == kx;
    assert r.state.ky == ky;
    assert r.state.y.Some?;
    assert r.state.y.value == yaw;
    assert r.motion == Motion(kx.angle, ky.angle, yaw);
  }

  /** The raw branch of `getAttitude` at clock reading `now`. */
  function Step(s: AttitudeState, now: real, m: RawMotion, atan2: Atan2): (r: AttitudeResult)
    requires Ready(s, now)
    ensures r.state.lastTime == Some(now)
    ensures r.state.kz == s.kz
  {
    StepWith(s, Interval(s, now), now, m, atan2)
  }

  /** A healthy state and a clock that has not gone backwards make both filters ready. */
  lemma HealthyReady(s: AttitudeState, now: real)
    requires Healthy(s) && ClockOk(s, now)
    ensures Ready(s, now)
  {
    Kalman.HealthyVariancePositive(s.kx, Interval(s, now));
    Kalman.HealthyVariancePositive(s.ky, Interval(s, now));
  }

  /** Every call keeps the filters healthy. */
  lemma StepKeepsHealthy(s: AttitudeState, now: real, m: RawMotion, atan2: Atan2)
    requires Healthy(s) && ClockOk(s, now)
    ensures Ready(s, now)
    ensures Healthy(Step(s, now, m, atan2).state)
  {
    HealthyReady(s, now);
    var dt := Interval(s, now);
    Kalman.StepKeepsHealthy(s.kx, GetAccX(atan2, m.accelX as real, m.accelZ as real),
                            GyroToDegree(m.gyroX as real), dt);
    Kalman.StepKeepsHealthy(s.ky, GetAccY(atan2, m.accelY as real, m.accelZ as real),
                            GyroToDegree(m.gyroY as real), dt);
  }

  /**
   * The first call measures a zero interval: the yaw integral starts at 0 and
   * both filters' time updates leave angle and covariance alone.
   */
  lemma FirstCallZeroInterval(s: AttitudeState, now: real, m: RawMotion, atan2: Atan2)
    requires s.lastTime.None? && s.y.None? && Ready(s, now)
    ensures Interval(s, now) == 0.0
    ensures Step(s, now, m, atan2).motion.yaw == 0.0
    ensures Kalman.Predict(s.kx, GyroToDegree(m.gyroX as real), Interval(s, now)).angle == s.kx.angle
    ensures Kalman.Predict(s.kx, GyroToDegree(m.gyroX as real), Interval(s, now)).p == s.kx.p
    ensures Kalman.Predict(s.ky, GyroToDegree(m.gyroY as real), Interval(s, now)).angle == s.ky.angle
    ensures Kalman.Predict(s.ky, GyroToDegree(m.gyroY as real), Interval(s, now)).p == s.ky.p
  {
    Kalman.PredictZeroDt(s.kx, GyroToDegree(m.gyroX as real));
    Kalman.PredictZeroDt(s.ky, GyroToDegree(m.gyroY as real));
  }

  /** The yaw integral grows by (gyro_z/16.4 + 2.6) * dt: the drift rate is always added. */
  lemma YawAccumulates(s: AttitudeState, now: real, m: RawMotion, atan2: Atan2)
    requires s.y.Some? && Ready(s, now)
    ensures var r := Step(s, now, m, atan2);
      r.state.y == Some(r.motion.yaw) &&
      r.motion.yaw - s.y.value == (m.gyroZ as real / 16.4 + YawDriftRate) * Interval(s, now)
  {
  }

  /**
   * The yaw rate added per second, gyro_z/16.4 + 2.6, is never zero for an
   * integer gyro reading, so after the first call the yaw changes on every
   * call with a nonzero interval.
   */
  lemma YawAlwaysMoves(s: AttitudeState, now: real, m: RawMotion, atan2: Atan2)
    requires s.y.Some? && Ready(s, now) && Interval(s, now) != 0.0
    ensures Step(s, now, m, atan2).motion.yaw != s.y.value
  {
    var rate := GyroToDegree(m.gyroZ as real) + YawDriftRate;
    if m.gyroZ <= -43 {
      assert rate < 0.0;
    } else {
      assert rate > 0.0;
    }
    YawAccumulates(s, now, m, atan2);
  }

  /**
   * Pitch comes from the x filter fed with (accel_x, accel_z, gyro_x), roll from
   * the y filter fed with (accel_y, accel_z, gyro_y); the z filter is not used.
   */
  lemma AxisWiring(s: AttitudeState, now: real, m: RawMotion, atan2: Atan2)
    requires Ready(s, now)
    ensures var r := Step(s, now, m, atan2);
      var dt := Interval(s, now);
      && r.motion.pitch == Kalman.Step(s.kx, ToDegree(atan2(m.accelX as real, m.accelZ as real)),
                                       m.gyroX as real / 16.4, dt).angle
      && r.motion.roll == Kalman.Step(s.ky, ToDegree(atan2(m.accelY as real, m.accelZ as real)),
                                      m.gyroY as real / 16.4, dt).angle
      && r.state.kx.angle == r.motion.pitch && r.state.ky.angle == r.motion.roll
      && r.state.kz == s.kz
  {
  }

  class Attitude {
    const kaX: Kalman.Kalman
    const kaY: Kalman.Kalman
    const kaZ: Kalman.Kalman
    var lastTime: Option<real>
    var y: Option<real>

    ghost function Repr(): set<object> {
      {this, kaX, kaX.P, kaY, kaY.P, kaZ, kaZ.P}
    }

    ghost predicate Valid()
      reads this, kaX, kaX.P, kaY, kaY.P, kaZ, kaZ.P
    {
      && kaX != kaY && kaY != kaZ && kaX != kaZ
      && kaX.P != kaY.P && kaY.P != kaZ.P && kaX.P != kaZ.P
      && kaX.Valid() && kaY.Valid() && kaZ.Valid()
      && Healthy(State())
    }

    function State(): AttitudeState
      reads this, kaX, kaX.P, kaY, kaY.P, kaZ, kaZ.P
      requires kaX.Valid() && kaY.Valid() && kaZ.Valid()
    {
      AttitudeState(lastTime, y, kaX.State(), kaY.State(), kaZ.State())
    }

    constructor ()
      ensures Valid() && fresh(Repr()) && State() == Initial()
    {
      kaX := new Kalman.Kalman();
      kaY := new Kalman.Kalman();
      kaZ := new Kalman.Kalman();
      lastTime := None;
      y := None;
      new;
      Kalman.InitialHealthy();
    }

    /** The raw branch of `getAttitude` on sample `m` at clock reading `now`. */
    method GetAttitude(now: real, m: RawMotion, atan2: Atan2) returns (motion: Motion)
      requires Valid() && ClockOk(State(), now)
      modifies this, kaX, kaX.P, kaY, kaY.P
      ensures Valid() && Ready(old(State()), now)
      ensures var r := Step(old(State()), now, m, atan2);
        State() == r.state && motion == r.motion
    {
      ghost var s := State();
      StepKeepsHealthy(s, now, m, atan2);
      var dt := ReadClock(now);
      assert dt == Interval(s, now);

      var p, r := FilterAxes(m, dt, atan2);
      y := Some(y.value + (GyroToDegree(m.gyroZ as real) + YawDriftRate) * dt);

      motion := Motion(p, r, y.value);
      StepWithFromParts(s, dt, now, m, atan2, kaX.State(), kaY.State(), y.value);
    }

    /** The start of `getAttitude`: default the clock and the yaw integral, then measure the interval. */
    method ReadClock(now: real) returns (dt: real)
      modifies this
      ensures lastTime == Some(now) && y == (if old(y).None? then Some(0.0) else old(y))
      ensures dt == (now - (if old(lastTime).None? then now else old(lastTime).value)) / 1000.0
    {
      if lastTime.None? {
        lastTime := Some(now);
      }
      if y.None? {
        y := Some(0.0);
      }

      var currentTime := now;
      dt := (currentTime - lastTime.value) / 1000.0;
      lastTime := Some(currentTime);
    }

    /** The two Kalman calls of `getAttitude`: pitch from `kaX`, roll from `kaY`. */
    method FilterAxes(m: RawMotion, dt: real, atan2: Atan2) returns (p: real, r: real)
      requires kaX != kaY && kaX.P != kaY.P && kaX.Valid() && kaY.Valid()
      requires Kalman.PredictedVariance(kaX.State(), dt) != 0.0
      requires Kalman.PredictedVariance(kaY.State(), dt) != 0.0
      modifies kaX, kaX.P, kaY, kaY.P
      ensures kaX.Valid() && kaY.Valid()
      ensures kaX.State() == Kalman.Step(old(kaX.State()), GetAccX(atan2, m.accelX as real, m.accelZ as real),
                                         GyroToDegree(m.gyroX as real), dt)
      ensures kaY.State() == Kalman.Step(old(kaY.State()), GetAccY(atan2, m.accelY as real, m.accelZ as real),
                                         GyroToDegree(m.gyroY as real), dt)
      ensures p == kaX.State().angle && r == kaY.State().angle
    {
      p := kaX.GetAngle(GetAccX(atan2, m.accelX as real, m.accelZ as real),
                        GyroToDegree(m.gyroX as real), dt);
      r := kaY.GetAngle(GetAccY(atan2, m.accelY as real, m.accelZ as real),
                        GyroToDegree(m.gyroY as real), dt);
    }
  }
}
