/**
 * The bench program (`dronetest.js`): a complementary filter that integrates
 * the gyro and blends in the accelerometer angle, and the periodic diagnostic
 * `fff`, which counts raw samples that differ from its reference sample,
 * accumulates drift against the orientation recorded at the last window,
 * and keeps a running maximum and minimum of the heading error.
 *
 * Both operations work on the same module globals (`time_control` is shared),
 * held by the class `TestBench`; `FilterStep` and `Diagnose` are the same
 * updates on values.  The clock is the parameter `now` (milliseconds), the
 * arc tangent is a parameter, and the orientation the Madgwick filter
 * returns is an input.  A global that JavaScript would hold as NaN (a sum
 * against a not yet recorded orientation) is `None`.
 */
module DroneTest {
  import opened Wrappers
  import Pid
  import Attitude

  /** The accelerometer weight of the blend. */
  const LPass: real := 0.03
  /** The gyro weight of the blend. */
  const HPass: real := 0.97
  /** The lower and upper bounds of the magnitude band that enables the blend. */
  const MinForce: real := 1.5
  const MaxForce: real := 100.0
  /** The start values of the running maximum and minimum. */
  const HighStart: real := -99999.0
  const LowStart: real := 99999.0
  /** The length of one reporting window, in milliseconds. */
  const Window: real := 1000.0

  /** The three values of one accelerometer or gyro array. */
  datatype Vec3 = Vec3(x: real, y: real, z: real)

  /** The Euler angles of the Madgwick filter. */
  datatype Euler = Euler(roll: real, pitch: real, heading: real)

  /** The module globals of the bench program that the model keeps. */
  datatype BenchState = BenchState(
    timeControl: real,
    pitch: real,
    roll: real,
    reference: Option<Attitude.RawMotion>,   // l_motion6
    mainLoopRateCount: nat,
    updateRateCount: nat,
    rollDrift: Option<real>,
    pitchDrift: Option<real>,
    yawDrift: Option<real>,
    initRoll: Option<real>,                  // init_roll_drift
    initPitch: Option<real>,
    initYaw: Option<real>,
    high: real,                              // h
    low: real)                               // l

  /** The globals at load: no reference sample and no recorded orientation yet, zero sums and counters. */
  function Initial(): (s: BenchState)
    ensures s.timeControl == 0.0 && s.mainLoopRateCount == 0 && s.updateRateCount == 0
    ensures s.reference.None? && s.initRoll.None? && s.initPitch.None? && s.initYaw.None?
    ensures s.rollDrift == s.pitchDrift == s.yawDrift == Some(0.0)
    ensures s.high < s.low
  {
    BenchState(0.0, 0.0, 0.0, None, 0, 0, Some(0.0), Some(0.0), Some(0.0),
               None, None, None, HighStart, LowStart)
  }

  // ---------------------------------------------------------------- the complementary filter

  /** The blend of a gyro angle with an accelerometer angle. */
  function Blend(angle: real, accAngle: real): (b: real)
    ensures b == accAngle + HPass * (angle - accAngle)
  {
    angle * HPass + accAngle * LPass
  }

  /**
   * The blend weights sum to 1: an angle equal to the accelerometer angle is
   * a fixed point, the result lies between the two angles, and the distance
   * to the accelerometer angle shrinks to 97 percent.
   */
  lemma BlendBetween(angle: real, accAngle: real)
    ensures HPass + LPass == 1.0
    ensures Blend(accAngle, accAngle) == accAngle
    ensures angle <= accAngle ==> angle <= Blend(angle, accAngle) <= accAngle
    ensures accAngle <= angle ==> accAngle <= Blend(angle, accAngle) <= angle
    ensures Blend(angle, accAngle) - accAngle == HPass * (angle - accAngle)
  {
  }

  function Magnitude(acc: Vec3): real {
    Pid.Abs(acc.x) + Pid.Abs(acc.y) + Pid.Abs(acc.z)
  }

  /** The accelerometer is trusted only when its magnitude is strictly inside the band. */
  predicate InBand(acc: Vec3) {
    MinForce < Magnitude(acc) < MaxForce
  }

  /** Seconds since the previous filter call; 0 on the first call, when `time_control` is 0. */
  function Interval(s: BenchState, now: real): (dt: real)
    ensures s.timeControl == 0.0 ==> dt == 0.0
    ensures s.timeControl != 0.0 ==> dt * 1000.0 == now - s.timeControl
  {
    var last := if s.timeControl == 0.0 then now else s.timeControl;
    (now - last) / 1000.0
  }

  /** The accelerometer pitch angle (y against z) in degrees, written as the filter writes it. */
  function PitchAcc(acc: Vec3, atan2: Attitude.Atan2): real {
    atan2(acc.y, acc.z) * 180.0 / Attitude.MPi
  }

  /** The accelerometer roll angle (x against z) in degrees. */
  function RollAcc(acc: Vec3, atan2: Attitude.Atan2): real {
    atan2(acc.x, acc.z) * 180.0 / Attitude.MPi
  }

  /** Both accelerometer angles are the degree conversion of the arc tangent. */
  lemma AccAnglesInDegrees(acc: Vec3, atan2: Attitude.Atan2)
    ensures PitchAcc(acc, atan2) == Attitude.ToDegree(atan2(acc.y, acc.z))
    ensures RollAcc(acc, atan2) == Attitude.ToDegree(atan2(acc.x, acc.z))
  {
  }

  /** `complementaryFilter` with the interval `dt` already measured. */
  function FilterStepWith(s: BenchState, dt: real, now: real, acc: Vec3, gyr: Vec3,
                          atan2: Attitude.Atan2): (r: BenchState)
    ensures r.timeControl == now
    ensures r.(timeControl := s.timeControl, pitch := s.pitch, roll := s.roll) == s
    ensures !InBand(acc) ==> r.pitch == s.pitch + gyr.x * dt && r.roll == s.roll - gyr.y * dt
  {
    var pitch := s.pitch + gyr.x * dt;
    var roll := s.roll - gyr.y * dt;
    if InBand(acc) then
      s.(timeControl := now, pitch := Blend(pitch, PitchAcc(acc, atan2)),
         roll := Blend(roll, RollAcc(acc, atan2)))
    else
      s.(timeControl := now, pitch := pitch, roll := roll)
  }

  /** One call of `complementaryFilter` at clock reading `now`. */
  function FilterStep(s: BenchState, now: real, acc: Vec3, gyr: Vec3, atan2: Attitude.Atan2): (r: BenchState)
    ensures r.timeControl == now
    ensures r.(timeControl := s.timeControl, pitch := s.pitch, roll := s.roll) == s
  {
    FilterStepWith(s, Interval(s, now), now, acc, gyr, atan2)
  }

  /**
   * The filter integrates pitch by the x rate and roll against the y rate,
   * then blends both exactly when the accelerometer is in band; it touches
   * nothing but the angles and the clock.
   */
  lemma FilterLaw(s: BenchState, now: real, acc: Vec3, gyr: Vec3, atan2: Attitude.Atan2)
    ensures var r := FilterStep(s, now, acc, gyr, atan2);
      var dt := Interval(s, now);
      && r.timeControl == now
      && r.pitch == (if InBand(acc) then Blend(s.pitch + gyr.x * dt, PitchAcc(acc, atan2))
                     else s.pitch + gyr.x * dt)
      && r.roll == (if InBand(acc) then Blend(s.roll - gyr.y * dt, RollAcc(acc, atan2))
                    else s.roll - gyr.y * dt)
      && r.(timeControl := s.timeControl, pitch := s.pitch, roll := s.roll) == s
  {
  }

  /** On the first call the interval is 0, so the gyro adds nothing. */
  lemma FirstFilterCallNoIntegration(s: BenchState, now: real, acc: Vec3, gyr: Vec3,
                                     atan2: Attitude.Atan2)
    requires s.timeControl == 0.0
    ensures var r := FilterStep(s, now, acc, gyr, atan2);
      && r.pitch == (if InBand(acc) then Blend(s.pitch, PitchAcc(acc, atan2)) else s.pitch)
      && r.roll == (if InBand(acc) then Blend(s.roll, RollAcc(acc, atan2)) else s.roll)
  {
    assert Interval(s, now) == 0.0;
  }

  /** Out of band only the gyro integration happens; in band an angle already at the accelerometer's stays. */
  lemma OutOfBandIntegratesOnly(s: BenchState, now: real, acc: Vec3, gyr: Vec3, atan2: Attitude.Atan2)
    requires !InBand(acc)
    ensures var r := FilterStep(s, now, acc, gyr, atan2);
      r.pitch == s.pitch + gyr.x * Interval(s, now) && r.roll == s.roll - gyr.y * Interval(s, now)
  {
  }

  lemma SteadyAngleKept(s: BenchState, now: real, acc: Vec3, atan2: Attitude.Atan2)
    requires InBand(acc)
    requires s.pitch == PitchAcc(acc, atan2) && s.roll == RollAcc(acc, atan2)
    ensures var r := FilterStep(s, now, acc, Vec3(0.0, 0.0, 0.0), atan2);
      r.pitch == s.pitch && r.roll == s.roll
  {
    BlendBetween(s.pitch, PitchAcc(acc, atan2));
    BlendBetween(s.roll, RollAcc(acc, atan2));
  }

  // ---------------------------------------------------------------- the diagnostic

  /** A drift sum: stays undefined once undefined, and while no orientation is recorded. */
  function Accumulate(sum: Option<real>, value: real, init: Option<real>): (r: Option<real>)
    ensures r.Some? <==> sum.Some? && init.Some?
  {
    if sum.Some? && init.Some? then Some(sum.value + (value - init.value)) else None
  }

  /** The heading error against the recorded heading; undefined before the first window. */
  function HeadingError(s: BenchState, euler: Euler): (e: Option<real>)
    ensures e.Some? <==> s.initYaw.Some?
    ensures e.Some? ==> e.value + s.initYaw.value == euler.heading
  {
    if s.initYaw.Some? then Some(euler.heading - s.initYaw.value) else None
  }

  /** The end of a reporting window: record the orientation, restart the counters and sums. */
  function CloseWindow(s: BenchState, euler: Euler, now: real): (r: BenchState)
    ensures now - s.timeControl < Window ==> r == s
    ensures r.high == s.high && r.low == s.low && r.reference == s.reference
    ensures r.pitch == s.pitch && r.roll == s.roll
  {
    if now - s.timeControl >= Window then
      s.(initRoll := Some(euler.roll), initPitch := Some(euler.pitch), initYaw := Some(euler.heading),
         timeControl := now, mainLoopRateCount := 0, updateRateCount := 0,
         rollDrift := Some(0.0), pitchDrift := Some(0.0), yawDrift := Some(0.0))
    else s
  }

  /** One run of `fff` on the raw sample `sample`, with the filter's angles `euler`. */
  function Diagnose(s: BenchState, sample: Attitude.RawMotion, euler: Euler, now: real): (r: BenchState)
    ensures r.reference == Some(if s.reference.None? then sample else s.reference.value)
    ensures r.pitch == s.pitch && r.roll == s.roll
  {
    CloseWindow(DiagnoseBeforeWindow(s, sample, euler), euler, now)
  }

  /** The updates of `fff` before its window test. */
  function DiagnoseBeforeWindow(s: BenchState, sample: Attitude.RawMotion, euler: Euler): (r: BenchState)
    ensures r.reference == Some(if s.reference.None? then sample else s.reference.value)
    ensures r.updateRateCount
         == s.updateRateCount + (if s.reference.Some? && sample != s.reference.value then 1 else 0)
    ensures r.mainLoopRateCount == s.mainLoopRateCount + 1
    ensures HeadingError(s, euler).Some? ==> r.low <= HeadingError(s, euler).value <= r.high
    ensures r.timeControl == s.timeControl && r.pitch == s.pitch && r.roll == s.roll
  {
    TrackHeading(CountSample(s, sample, euler), euler)
  }

  /** The reference sample, the drift sums and the two counters. */
  function CountSample(s: BenchState, sample: Attitude.RawMotion, euler: Euler): (r: BenchState)
    ensures r.reference == Some(if s.reference.None? then sample else s.reference.value)
    ensures r.updateRateCount
         == s.updateRateCount + (if s.reference.Some? && sample != s.reference.value then 1 else 0)
    ensures r.mainLoopRateCount == s.mainLoopRateCount + 1
    ensures r.rollDrift.Some? <==> s.rollDrift.Some? && s.initRoll.Some?
    ensures r.(reference := s.reference, rollDrift := s.rollDrift, pitchDrift := s.pitchDrift,
               yawDrift := s.yawDrift, updateRateCount := s.updateRateCount,
               mainLoopRateCount := s.mainLoopRateCount) == s
  {
    var reference := if s.reference.None? then sample else s.reference.value;
    s.(
      reference := Some(reference),
      rollDrift := Accumulate(s.rollDrift, euler.roll, s.initRoll),
      pitchDrift := Accumulate(s.pitchDrift, euler.pitch, s.initPitch),
      yawDrift := Accumulate(s.yawDrift, euler.heading, s.initYaw),
      updateRateCount := s.updateRateCount + (if sample != reference then 1 else 0),
      mainLoopRateCount := s.mainLoopRateCount + 1)
  }

  /** The running maximum and minimum of the heading error. */
  function TrackHeading(s: BenchState, euler: Euler): (r: BenchState)
    ensures r.high >= s.high && r.low <= s.low
    ensures HeadingError(s, euler).Some? ==> r.low <= HeadingError(s, euler).value <= r.high
    ensures r.(high := s.high, low := s.low) == s
  {
    var ev := HeadingError(s, euler);
    s.(high := if ev.Some? && ev.value > s.high then ev.value else s.high,
       low := if ev.Some? && ev.value < s.low then ev.value else s.low)
  }

  /**
   * The maximum and minimum only widen, and once the heading error is
   * defined it lies between them after the tick.
   */
  lemma RunningBounds(s: BenchState, sample: Attitude.RawMotion, euler: Euler, now: real)
    ensures var r := Diagnose(s, sample, euler, now);
      && r.high >= s.high && r.low <= s.low
      && (HeadingError(s, euler).Some? ==>
            r.low <= HeadingError(s, euler).value <= r.high &&
            r.high == (if HeadingError(s, euler).value > s.high then HeadingError(s, euler).value else s.high) &&
            r.low == (if HeadingError(s, euler).value < s.low then HeadingError(s, euler).value else s.low))
      && (HeadingError(s, euler).None? ==> r.high == s.high && r.low == s.low)
  {
  }

  /**
   * A sample is counted exactly when it differs on some axis from the
   * reference sample, which is the first sample ever seen and never changes.
   */
  lemma CountsAgainstFirstSample(s: BenchState, sample: Attitude.RawMotion, euler: Euler, now: real)
    requires now - s.timeControl < Window
    ensures var r := Diagnose(s, sample, euler, now);
      && r.reference == (if s.reference.Some? then s.reference else Some(sample))
      && r.updateRateCount == s.updateRateCount + (if s.reference.Some? && sample != s.reference.value then 1 else 0)
      && r.mainLoopRateCount == s.mainLoopRateCount + 1
  {
  }

  /** When the window has run out the counters and sums restart and the orientation is recorded. */
  lemma WindowRestarts(s: BenchState, sample: Attitude.RawMotion, euler: Euler, now: real)
    requires now - s.timeControl >= Window
    ensures var r := Diagnose(s, sample, euler, now);
      && r.timeControl == now && r.mainLoopRateCount == 0 && r.updateRateCount == 0
      && r.rollDrift == Some(0.0) && r.pitchDrift == Some(0.0) && r.yawDrift == Some(0.0)
      && r.initRoll == Some(euler.roll) && r.initPitch == Some(euler.pitch)
      && r.initYaw == Some(euler.heading)
  {
  }

  /** One input of `fff`: the raw sample, the filter's angles and the clock reading. */
  datatype TickInput = TickInput(sample: Attitude.RawMotion, euler: Euler, now: real)

  function Run(s: BenchState, ticks: seq<TickInput>): BenchState
    decreases |ticks|
  {
    if |ticks| == 0 then s
    else Run(Diagnose(s, ticks[0].sample, ticks[0].euler, ticks[0].now), ticks[1..])
  }

  /** The number of samples in `ticks` that differ from `first`. */
  function CountDiffering(ticks: seq<TickInput>, first: Attitude.RawMotion): nat
    decreases |ticks|
  {
    if |ticks| == 0 then 0
    else (if ticks[0].sample != first then 1 else 0) + CountDiffering(ticks[1..], first)
  }

  /** Within one window nothing restarts, and the window start stays put. */
  predicate WithinWindow(s: BenchState, ticks: seq<TickInput>) {
    forall i :: 0 <= i < |ticks| ==> ticks[i].now - s.timeControl < Window
  }

  /**
   * Over ticks inside one window, the update counter grows by the number of
   * samples that differ from the first sample of the run, not from their predecessor.
   */
  lemma {:induction false} RunCountsAgainstFirstSample(s: BenchState, ticks: seq<TickInput>)
    requires s.reference.None? && |ticks| > 0 && WithinWindow(s, ticks)
    ensures var r := Run(s, ticks);
      && r.reference == Some(ticks[0].sample)
      && r.updateRateCount == s.updateRateCount + CountDiffering(ticks, ticks[0].sample)
      && r.mainLoopRateCount == s.mainLoopRateCount + |ticks|
  {
    var s1 := Diagnose(s, ticks[0].sample, ticks[0].euler, ticks[0].now);
    assert s1.reference == Some(ticks[0].sample) && s1.timeControl == s.timeControl;
    RunWithReference(s1, ticks[1..], ticks[0].sample);
  }

  lemma {:induction false} RunWithReference(s: BenchState, ticks: seq<TickInput>, first: Attitude.RawMotion)
    requires s.reference == Some(first) && WithinWindow(s, ticks)
    ensures var r := Run(s, ticks);
      && r.reference == Some(first)
      && r.updateRateCount == s.updateRateCount + CountDiffering(ticks, first)
      && r.mainLoopRateCount == s.mainLoopRateCount + |ticks|
    decreases |ticks|
  {
    if |ticks| > 0 {
      var s1 := Diagnose(s, ticks[0].sample, ticks[0].euler, ticks[0].now);
      assert ticks[0].now - s.timeControl < Window;
      assert s1.timeControl == s.timeControl;
      assert WithinWindow(s1, ticks[1..]) by {
        forall i | 0 <= i < |ticks[1..]|
          ensures ticks[1..][i].now - s1.timeControl < Window
        {
          assert ticks[1..][i] == ticks[i + 1];
        }
      }
      RunWithReference(s1, ticks[1..], first);
    }
  }

  // ---------------------------------------------------------------- the object

  class TestBench {
    var timeControl: real
    var pitch: real
    var roll: real
    var reference: Option<Attitude.RawMotion>
    var mainLoopRateCount: nat
    var updateRateCount: nat
    var rollDrift: Option<real>
    var pitchDrift: Option<real>
    var yawDrift: Option<real>
    var initRoll: Option<real>
    var initPitch: Option<real>
    var initYaw: Option<real>
    var high: real
    var low: real

    function State(): BenchState
      reads this
    {
      BenchState(timeControl, pitch, roll, reference, mainLoopRateCount, updateRateCount,
                 rollDrift, pitchDrift, yawDrift, initRoll, initPitch, initYaw, high, low)
    }

    /** Module load: the globals' initial values. */
    constructor ()
      ensures State() == Initial()
    {
      timeControl, pitch, roll := 0.0, 0.0, 0.0;
      reference := None;
      mainLoopRateCount, updateRateCount := 0, 0;
      rollDrift, pitchDrift, yawDrift := Some(0.0), Some(0.0), Some(0.0);
      initRoll, initPitch, initYaw := None, None, None;
      high, low := HighStart, LowStart;
    }

    /** `complementaryFilter(accData, gyrData)` at clock reading `now`. */
    method ComplementaryFilter(acc: Vec3, gyr: Vec3, now: real, atan2: Attitude.Atan2)
      modifies this
      ensures State() == FilterStep(old(State()), now, acc, gyr, atan2)
    {
      ghost var s := State();
      if timeControl == 0.0 {
        timeControl := now;
      }
      var dt := (now - timeControl) / 1000.0;
      timeControl := now;
      assert dt == Interval(s, now);

      // Integrate the gyroscope data
      pitch := pitch + gyr.x * dt;
      roll := roll - gyr.y * dt;

      // Compensate for drift with the accelerometer when its magnitude is plausible
      var forceMagnitudeApprox := Pid.Abs(acc.x) + Pid.Abs(acc.y) + Pid.Abs(acc.z);
      if forceMagnitudeApprox > MinForce && forceMagnitudeApprox < MaxForce {
        var pitchAcc := atan2(acc.y, acc.z) * 180.0 / Attitude.MPi;
        pitch := pitch * HPass + pitchAcc * LPass;
        var rollAcc := atan2(acc.x, acc.z) * 180.0 / Attitude.MPi;
        roll := roll * HPass + rollAcc * LPass;
      }
      assert State() == FilterStepWith(s, dt, now, acc, gyr, atan2);
    }

    /** `fff`: one diagnostic tick on a raw sample and the filter's angles. */
    method Fff(sample: Attitude.RawMotion, euler: Euler, now: real)
      modifies this
      ensures State() == Diagnose(old(State()), sample, euler, now)
    {
      Record(sample, euler);
      CloseWindowAt(euler, now);
    }

    /** The part of `fff` before the window test. */
    method Record(sample: Attitude.RawMotion, euler: Euler)
      modifies this
      ensures State() == DiagnoseBeforeWindow(old(State()), sample, euler)
    {
      Count(sample, euler);
      Track(euler);
    }

    method Count(sample: Attitude.RawMotion, euler: Euler)
      modifies this
      ensures State() == CountSample(old(State()), sample, euler)
    {
      if reference.None? {
        reference := Some(sample);
      }

      rollDrift := Accumulate(rollDrift, euler.roll, initRoll);
      pitchDrift := Accumulate(pitchDrift, euler.pitch, initPitch);
      yawDrift := Accumulate(yawDrift, euler.heading, initYaw);

      if sample != reference.value {
        updateRateCount := updateRateCount + 1;
      }

      mainLoopRateCount := mainLoopRateCount + 1;
    }

    method Track(euler: Euler)
      modifies this
      ensures State() == TrackHeading(old(State()), euler)
    {
      // The heading error is NaN, and no comparison holds, until a heading is recorded
      var ev := if initYaw.Some? then Some(euler.heading - initYaw.value) else None;
      if ev.Some? && ev.value > high {
        high := ev.value;
      }
      if ev.Some? && ev.value < low {
        low := ev.value;
      }
    }

    /** The window test of `fff`. */
    method CloseWindowAt(euler: Euler, tNow: real)
      modifies this
      ensures State() == CloseWindow(old(State()), euler, tNow)
    {
      if tNow - timeControl >= Window {
        initRoll := Some(euler.roll);
        initPitch := Some(euler.pitch);
        initYaw := Some(euler.heading);
        timeControl := tNow;
        mainLoopRateCount := 0;
        updateRateCount := 0;
        rollDrift := Some(0.0);
        pitchDrift := Some(0.0);
        yawDrift := Some(0.0);
      }
    }
  }
}
