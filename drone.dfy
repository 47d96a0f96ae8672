/**
 * The flight loop (`drone.js`): the output clamp, the standalone saturation
 * function, the quad-X mixer, the control tick with its stale-sample and
 * arming gates and its write suppression, the command handler, and the
 * startup write sequence that ends with arming.
 *
 * `DroneState` is the module state as a value; `Tick`, `ApplyCommand` and
 * `StartupStep` are the three things that change it.  The class
 * `FlightControl` holds the same state (and the controller and attitude
 * objects) and its methods are proved to follow those functions.  PWM writes
 * are recorded, in order, in the log `writes`.
 */
module Drone {
  import opened Wrappers
  import Pid
  import Attitude

  const PwmMaxRange: int := 2000
  const PwmMinRange: int := 1100
  const PwmRange: int := PwmMaxRange - PwmMinRange
  /** The integral limit the three controllers are built with. */
  const Lmax: real := 1000.0
  /** The command written to every motor when there is no throttle. */
  const IdleCommand: int := 1000
  /** The bound of `transferFunction`. */
  const MaxAngle: real := 400.0

  datatype Motor = FrontLeft | FrontRight | BackLeft | BackRight

  datatype PwmWrite = PwmWrite(motor: Motor, value: int)

  /** Four per-motor values before the clamp. */
  datatype Outputs = Outputs(fl: real, fr: real, bl: real, br: real)

  /** Four per-motor pulse widths. */
  datatype Commands = Commands(fl: int, fr: int, bl: int, br: int)

  // ---------------------------------------------------------------- mixer

  /** `FilterOutput`: clamp to [0, 900], then truncate to an integer. */
  function FilterOutput(output: real): (r: int)
    ensures 0 <= r <= PwmRange
    ensures 0.0 <= output <= PwmRange as real ==> r as real <= output < r as real + 1.0
    ensures output < 0.0 ==> r == 0
    ensures output >= PwmRange as real ==> r == PwmRange
  {
    var local := if output > PwmRange as real then PwmRange as real else output;
    var clamped := if local < 0.0 then 0.0 else local;
    clamped.Floor
  }

  /** The clamp never inverts an order: a larger raw value never gives a smaller command. */
  lemma FilterOutputMonotone(x: real, y: real)
    requires x <= y
    ensures FilterOutput(x) <= FilterOutput(y)
  {
    var cx := if x > PwmRange as real then PwmRange as real else x;
    var cy := if y > PwmRange as real then PwmRange as real else y;
    var dx := if cx < 0.0 then 0.0 else cx;
    var dy := if cy < 0.0 then 0.0 else cy;
    assert dx <= dy;
    assert dx.Floor as real <= dx <= dy < dy.Floor as real + 1.0;
  }

  /** `transferFunction`: a symmetric saturation at +-400. */
  function TransferFunction(value: real): (r: real)
    ensures -MaxAngle <= r <= MaxAngle
    ensures -MaxAngle <= value <= MaxAngle ==> r == value
    ensures value > MaxAngle ==> r == MaxAngle
    ensures value < -MaxAngle ==> r == -MaxAngle
  {
    if Pid.Abs(value) > MaxAngle then
      var signal := if value > 0.0 then 1.0 else -1.0;
      MaxAngle * signal
    else value
  }

  /** Saturating twice is saturating once, and the saturation is odd. */
  lemma TransferFunctionIdempotentOdd(value: real)
    ensures TransferFunction(TransferFunction(value)) == TransferFunction(value)
    ensures TransferFunction(-value) == -TransferFunction(value)
  {
  }

  /** The throttle share of the PWM range: 900 times the throttle percentage. */
  function ThrottleOutput(throttle: real): (t: real)
    ensures t * 100.0 == PwmRange as real * throttle
    ensures 0.0 <= throttle <= 100.0 ==> 0.0 <= t <= PwmRange as real
  {
    (PwmMaxRange - PwmMinRange) as real * throttle / 100.0
  }

  /**
   * The quad-X mixing law applied to the three controller outputs: pitch
   * lowers the front pair and raises the back pair, roll raises the left
   * pair and lowers the right pair, yaw raises one diagonal and lowers the other.
   */
  function Mix(pitchOut: real, rollOut: real, yawOut: real): (o: Outputs)
    ensures o.fl + o.fr == -2.0 * pitchOut && o.bl + o.br == 2.0 * pitchOut
    ensures o.fl + o.bl == 2.0 * rollOut && o.fr + o.br == -2.0 * rollOut
    ensures o.fl + o.br == 2.0 * yawOut && o.fr + o.bl == -2.0 * yawOut
  {
    Outputs(rollOut - pitchOut + yawOut,     // front left
            -rollOut - pitchOut - yawOut,    // front right
            rollOut + pitchOut - yawOut,     // back left
            -rollOut + pitchOut + yawOut)    // back right
  }

  /**
   * The mixer's corrections cancel over the four motors, and each axis can be
   * read back from them: front minus back is -4 pitch, left minus right is
   * 4 roll, and the front-left/back-right diagonal minus the other is 4 yaw.
   */
  lemma MixDecomposes(pitchOut: real, rollOut: real, yawOut: real)
    ensures var o := Mix(pitchOut, rollOut, yawOut);
      && o.fl + o.fr + o.bl + o.br == 0.0
      && (o.fl + o.fr) - (o.bl + o.br) == -4.0 * pitchOut
      && (o.fl + o.bl) - (o.fr + o.br) == 4.0 * rollOut
      && (o.fl + o.br) - (o.fr + o.bl) == 4.0 * yawOut
  {
  }

  /** One motor's command: clamp the mixed value plus throttle, then add the minimum pulse. */
  function MotorCommand(mixed: real, throttleOutput: real): (c: int)
    ensures PwmMinRange <= c <= PwmMaxRange
  {
    FilterOutput(mixed + throttleOutput) + PwmMinRange
  }

  function MotorCommands(o: Outputs, throttleOutput: real): (c: Commands)
    ensures InFlightRange(c)
  {
    Commands(MotorCommand(o.fl, throttleOutput), MotorCommand(o.fr, throttleOutput),
             MotorCommand(o.bl, throttleOutput), MotorCommand(o.br, throttleOutput))
  }

  predicate InFlightRange(c: Commands) {
    PwmMinRange <= c.fl <= PwmMaxRange && PwmMinRange <= c.fr <= PwmMaxRange &&
    PwmMinRange <= c.bl <= PwmMaxRange && PwmMinRange <= c.br <= PwmMaxRange
  }

  /** Without attitude corrections every motor gets the same command. */
  lemma LevelMixIsEven(throttleOutput: real)
    ensures var c := MotorCommands(Mix(0.0, 0.0, 0.0), throttleOutput);
      c.fl == c.fr == c.bl == c.br == MotorCommand(0.0, throttleOutput)
  {
  }

  /** A raw command that is already in range passes the clamp unchanged, up to truncation. */
  lemma MotorCommandInRange(mixed: real, throttleOutput: real)
    requires 0.0 <= mixed + throttleOutput <= PwmRange as real
    ensures var c := MotorCommand(mixed, throttleOutput) - PwmMinRange;
      c as real <= mixed + throttleOutput < c as real + 1.0
  {
  }

  /** The four writes of a motor update, in the order the source issues them. */
  function CommandWrites(c: Commands): seq<PwmWrite> {
    [PwmWrite(FrontLeft, c.fl), PwmWrite(FrontRight, c.fr),
     PwmWrite(BackLeft, c.bl), PwmWrite(BackRight, c.br)]
  }

  function IdleWrites(): seq<PwmWrite> {
    AllMotors(IdleCommand)
  }

  /** What an armed tick writes: idle without throttle, else the commands if they changed. */
  function TickWrites(throttleOutput: real, c: Commands, current: Commands): (w: seq<PwmWrite>)
    ensures throttleOutput <= 0.0 ==> w == IdleWrites()
    ensures throttleOutput > 0.0 ==> (w == [] <==> c == current)
  {
    if throttleOutput > 0.0 then
      if c != current then CommandWrites(c) else []
    else IdleWrites()
  }

  /** A value a control tick may write: the idle command or a pulse in [1100, 2000]. */
  predicate FlightValue(v: int) {
    v == IdleCommand || PwmMinRange <= v <= PwmMaxRange
  }

  lemma TickWritesInRange(throttleOutput: real, c: Commands, current: Commands)
    requires InFlightRange(c)
    ensures forall i :: 0 <= i < |TickWrites(throttleOutput, c, current)| ==>
      FlightValue(TickWrites(throttleOutput, c, current)[i].value)
  {
  }

  // ---------------------------------------------------------------- startup

  /** The same value written to the four motors, in the order FL, FR, BL, BR. */
  function AllMotors(v: int): seq<PwmWrite> {
    CommandWrites(Commands(v, v, v, v))
  }

  /** The number of startup phases: the load-time all-off writes, then the seven timer callbacks. */
  const StartupPhaseCount: nat := 8

  /**
   * The writes of startup phase `i`: all off (phase 0, written at load time),
   * then, one timer callback each, full range, minimum, and a short pulse on
   * each motor in turn; the last callback also sets `started`.
   */
  function Phase(i: nat): (w: seq<PwmWrite>)
    requires i < StartupPhaseCount
    ensures |w| == Boundary(i + 1) - Boundary(i)
  {
    Phases[i]
  }

  /** The writes of each startup phase, in order. */
  const Phases: seq<seq<PwmWrite>> := [
    AllMotors(0),
    AllMotors(PwmMaxRange),
    AllMotors(IdleCommand),
    [PwmWrite(FrontLeft, 1050)],
    [PwmWrite(FrontLeft, 1000), PwmWrite(FrontRight, 1050)],
    [PwmWrite(FrontRight, 1000), PwmWrite(BackRight, 1050)],
    [PwmWrite(BackRight, 1000), PwmWrite(BackLeft, 1050)],
    [PwmWrite(BackLeft, 1000)]]

  /** The writes of the first `k` startup phases. */
  function StartupLog(k: nat): seq<PwmWrite>
    requires k <= StartupPhaseCount
  {
    if k == 0 then [] else StartupLog(k - 1) + Phase(k - 1)
  }

  /** The last value written to motor `m` in `w`, if any. */
  function LastWrite(w: seq<PwmWrite>, m: Motor): Option<int>
    decreases |w|
  {
    if |w| == 0 then None
    else if w[|w| - 1].motor == m then Some(w[|w| - 1].value)
    else LastWrite(w[..|w| - 1], m)
  }

  /** The motors pulsed with 1050 in `w`, in order. */
  function Pulsed(w: seq<PwmWrite>): seq<Motor>
    decreases |w|
  {
    if |w| == 0 then []
    else Pulsed(w[..|w| - 1]) + (if w[|w| - 1].value == 1050 then [w[|w| - 1].motor] else [])
  }

  /** `LastWrite` of a prefix, one write shorter. */
  lemma LastWriteTake(w: seq<PwmWrite>, k: nat, m: Motor)
    requires 0 < k <= |w|
    ensures LastWrite(w[..k], m) == if w[k - 1].motor == m then Some(w[k - 1].value) else LastWrite(w[..k - 1], m)
  {
    assert w[..k][..k - 1] == w[..k - 1];
  }

  /** `Pulsed` of a prefix, one write shorter. */
  lemma PulsedTake(w: seq<PwmWrite>, k: nat)
    requires 0 < k <= |w|
    ensures Pulsed(w[..k]) == Pulsed(w[..k - 1]) + (if w[k - 1].value == 1050 then [w[k - 1].motor] else [])
  {
    assert w[..k][..k - 1] == w[..k - 1];
  }

  /** All startup writes in order; phase `i` issues those from `Boundary(i)` to `Boundary(i + 1)`. */
  function StartupWrites(): (w: seq<PwmWrite>)
    ensures |w| == Boundary(StartupPhaseCount)
    ensures w[|w| - 1] == PwmWrite(BackLeft, 1000)
  {
    [
     PwmWrite(FrontLeft, 0), PwmWrite(FrontRight, 0), PwmWrite(BackLeft, 0), PwmWrite(BackRight, 0),
     PwmWrite(FrontLeft, 2000), PwmWrite(FrontRight, 2000), PwmWrite(BackLeft, 2000), PwmWrite(BackRight, 2000),
     PwmWrite(FrontLeft, 1000), PwmWrite(FrontRight, 1000), PwmWrite(BackLeft, 1000), PwmWrite(BackRight, 1000),
     PwmWrite(FrontLeft, 1050),
     PwmWrite(FrontLeft, 1000), PwmWrite(FrontRight, 1050),
     PwmWrite(FrontRight, 1000), PwmWrite(BackRight, 1050),
     PwmWrite(BackRight, 1000), PwmWrite(BackLeft, 1050),
     PwmWrite(BackLeft, 1000)]
  }

  function Boundary(k: nat): nat
    requires k <= StartupPhaseCount
  {
    [0, 4, 8, 12, 13, 15, 17, 19, 20][k]
  }

  lemma PhaseInStartupWrites(i: nat)
    requires i < StartupPhaseCount
    ensures Boundary(i) <= Boundary(i + 1) <= |StartupWrites()|
    ensures Phase(i) == StartupWrites()[Boundary(i)..Boundary(i + 1)]
  {
    var w := StartupWrites();
    if i == 0 {
      assert w[0..4] == [w[0], w[1], w[2], w[3]];
    } else if i == 1 {
      assert w[4..8] == [w[4], w[5], w[6], w[7]];
    } else if i == 2 {
      assert w[8..12] == [w[8], w[9], w[10], w[11]];
    } else if i == 3 {
      assert w[12..13] == [w[12]];
    } else if i == 4 {
      assert w[13..15] == [w[13], w[14]];
    } else if i == 5 {
      assert w[15..17] == [w[15], w[16]];
    } else if i == 6 {
      assert w[17..19] == [w[17], w[18]];
    } else {
      assert w[19..20] == [w[19]];
    }
  }

  /** After `k` phases the log is the first `Boundary(k)` startup writes. */
  lemma {:induction false} StartupLogPrefix(k: nat)
    requires k <= StartupPhaseCount
    ensures Boundary(k) <= |StartupWrites()|
    ensures StartupLog(k) == StartupWrites()[..Boundary(k)]
  {
    if k > 0 {
      StartupLogPrefix(k - 1);
      PhaseInStartupWrites(k - 1);
      var w := StartupWrites();
      assert w[..Boundary(k - 1)] + w[Boundary(k - 1)..Boundary(k)] == w[..Boundary(k)];
    }
  }

  /** The whole startup sequence leaves every motor at the idle command. */
  lemma StartupEndsIdle(m: Motor)
    ensures LastWrite(StartupLog(StartupPhaseCount), m) == Some(IdleCommand)
  {
    StartupLogPrefix(StartupPhaseCount);
    var w := StartupWrites();
    LastWriteTake(w, 20, m);
    LastWriteTake(w, 19, m);
    LastWriteTake(w, 18, m);
    LastWriteTake(w, 17, m);
    LastWriteTake(w, 16, m);
    LastWriteTake(w, 15, m);
    LastWriteTake(w, 14, m);
  }

  lemma {:induction false} PulsedNone(w: seq<PwmWrite>)
    requires forall i :: 0 <= i < |w| ==> w[i].value != 1050
    ensures Pulsed(w) == []
    decreases |w|
  {
    if |w| > 0 {
      PulsedNone(w[..|w| - 1]);
    }
  }

  /** The first two pulses, up to the end of the front-right callback. */
  lemma StartupFrontPulses()
    ensures Pulsed(StartupWrites()[..16]) == [FrontLeft, FrontRight]
  {
    var w := StartupWrites();
    assert forall i :: 0 <= i < 12 ==> w[..12][i].value != 1050;
    PulsedNone(w[..12]);
    PulsedTake(w, 13);
    PulsedTake(w, 14);
    PulsedTake(w, 15);
    PulsedTake(w, 16);
  }

  /** The startup sequence pulses each motor exactly once, in the order FL, FR, BR, BL. */
  lemma StartupPulseOrder()
    ensures Pulsed(StartupLog(StartupPhaseCount)) == [FrontLeft, FrontRight, BackRight, BackLeft]
  {
    StartupLogPrefix(StartupPhaseCount);
    StartupFrontPulses();
    var w := StartupWrites();
    PulsedTake(w, 17);
    PulsedTake(w, 18);
    PulsedTake(w, 19);
    PulsedTake(w, 20);
  }

  // ---------------------------------------------------------------- state

  /** The module state of `drone.js` that the model keeps, plus the three controllers. */
  datatype DroneState = DroneState(
    throttle: real,
    updateRequired: bool,
    started: bool,
    startupStage: nat,          // startup phases run so far, the load-time writes included
    previousMotion: Option<Attitude.Motion>,
    current: Commands,          // currentFL, currentFR, currentBL, currentBR
    mainLoopRateCount: nat,
    updateRateCount: nat,
    timeControl: real,
    yawDrift: real,
    yawOffset: Option<real>,
    pitch: Pid.PidState,
    roll: Pid.PidState,
    yaw: Pid.PidState,
    writes: seq<PwmWrite>)

  /**
   * The arming invariant: `started` holds exactly after the last startup
   * phase, the log begins with the startup writes run so far, and before
   * arming nothing else has been written.
   */
  predicate StartupLogged(s: DroneState) {
    LogFollowsStartup(s.startupStage, s.started, s.writes)
  }

  /** `StartupLogged` on the three fields it depends on. */
  predicate LogFollowsStartup(stage: nat, started: bool, writes: seq<PwmWrite>) {
    && stage <= StartupPhaseCount
    && (started <==> stage == StartupPhaseCount)
    && StartupLog(stage) <= writes
    && (!started ==> writes == StartupLog(stage))
  }

  /** Motion counts as new when it differs from the previous sample on yaw, roll or pitch. */
  predicate Changed(s: DroneState, motion: Attitude.Motion) {
    s.previousMotion.Some? && s.previousMotion.value != motion
  }

  /** The part of a tick that runs only after startup and after the first command. */
  function ArmedTick(s: DroneState, motion: Attitude.Motion, now: real): (r: DroneState)
    ensures InFlightRange(r.current)
  {
    var yawOffset := if s.yawOffset.None? || s.yawOffset == Some(0.0) then Some(motion.yaw) else s.yawOffset;
    var throttleOutput := ThrottleOutput(s.throttle);
    var p := Pid.Step(s.pitch, motion.pitch, now, Some(s.throttle), None, None);
    var r := Pid.Step(s.roll, -motion.roll, now, Some(s.throttle), None, None);
    var y := Pid.Step(s.yaw, motion.yaw, now, Some(s.throttle), None, None);
    var c := MotorCommands(Mix(p.output, r.output, y.output), throttleOutput);
    s.(yawOffset := yawOffset, pitch := p.state, roll := r.state, yaw := y.state,
       writes := s.writes + TickWrites(throttleOutput, c, s.current), current := c)
  }

  /**
   * The armed block as the source has it: after the three controller updates
   * the telemetry lines call `getCurrentP` on a controller, which `Controller`
   * does not define, so the block throws before any motor write and the
   * general handler writes 0 to every motor.
   */
  function ArmedTickAsWritten(s: DroneState, motion: Attitude.Motion, now: real): (r: DroneState)
    ensures r.current == s.current && r.writes == s.writes + AllMotors(0)
    ensures var a := ArmedTick(s, motion, now); r.(writes := a.writes, current := a.current) == a
  {
    var yawOffset := if s.yawOffset.None? || s.yawOffset == Some(0.0) then Some(motion.yaw) else s.yawOffset;
    var p := Pid.Step(s.pitch, motion.pitch, now, Some(s.throttle), None, None);
    var r := Pid.Step(s.roll, -motion.roll, now, Some(s.throttle), None, None);
    var y := Pid.Step(s.yaw, motion.yaw, now, Some(s.throttle), None, None);
    s.(yawOffset := yawOffset, pitch := p.state, roll := r.state, yaw := y.state,
       writes := s.writes + AllMotors(0))
  }

  /**
   * As written, an armed tick stops every motor (the last write to each is 0)
   * and never records the mixed commands, so its log always differs from the
   * intended tick's, which writes nothing, the idle command or flight pulses.
   */
  lemma AsWrittenArmedTickStopsMotors(s: DroneState, motion: Attitude.Motion, now: real)
    ensures var r := ArmedTickAsWritten(s, motion, now);
      && r.current == s.current
      && (forall m: Motor :: LastWrite(r.writes, m) == Some(0))
      && r.writes != ArmedTick(s, motion, now).writes
  {
    var w := ArmedTickAsWritten(s, motion, now).writes;
    var n := |s.writes|;
    assert w[n..] == AllMotors(0);
    forall m: Motor
      ensures LastWrite(w, m) == Some(0)
    {
      assert w[..n + 4] == w;
      LastWriteTake(w, n + 4, m);
      LastWriteTake(w, n + 3, m);
      LastWriteTake(w, n + 2, m);
      LastWriteTake(w, n + 1, m);
    }
    var t := TickWrites(ThrottleOutput(s.throttle), ArmedTick(s, motion, now).current, s.current);
    assert ArmedTick(s, motion, now).writes == s.writes + t;
    if |t| == 4 {
      TickWritesInRange(ThrottleOutput(s.throttle), ArmedTick(s, motion, now).current, s.current);
      assert (s.writes + t)[n] != w[n];
    }
  }

  /** `ArmedTick` assembled from its parts; it only reassembles the body. */
  lemma ArmedTickFromParts(s: DroneState, motion: Attitude.Motion, now: real, yawOffset: Option<real>,
                           p: Pid.UpdateResult, ro: Pid.UpdateResult, y: Pid.UpdateResult, c: Commands)
    requires yawOffset == if s.yawOffset.None? || s.yawOffset == Some(0.0) then Some(motion.yaw) else s.yawOffset
    requires p == Pid.Step(s.pitch, motion.pitch, now, Some(s.throttle), None, None)
    requires ro == Pid.Step(s.roll, -motion.roll, now, Some(s.throttle), None, None)
    requires y == Pid.Step(s.yaw, motion.yaw, now, Some(s.throttle), None, None)
    requires c == MotorCommands(Mix(p.output, ro.output, y.output), ThrottleOutput(s.throttle))
    ensures ArmedTick(s, motion, now) ==
      s.(yawOffset := yawOffset, pitch := p.state, roll := ro.state, yaw := y.state,
         writes := s.writes + TickWrites(ThrottleOutput(s.throttle), c, s.current), current := c)
  {
  }

  /** The once-a-second rate window: record yaw, restart the window and the counters. */
  function RateWindow(s: DroneState, motion: Attitude.Motion, now: real): (r: DroneState)
    ensures now - s.timeControl >= 1000.0 ==>
      r.yawDrift == motion.yaw && r.timeControl == now && r.mainLoopRateCount == 0 && r.updateRateCount == 0
    ensures now - s.timeControl < 1000.0 ==> r == s
    ensures r.(yawDrift := s.yawDrift, timeControl := s.timeControl,
               mainLoopRateCount := s.mainLoopRateCount, updateRateCount := s.updateRateCount) == s
  {
    if now - s.timeControl >= 1000.0 then
      s.(yawDrift := motion.yaw, timeControl := now, mainLoopRateCount := 0, updateRateCount := 0)
    else s
  }

  /** One run of `mainFunction` on the attitude `motion` read at clock reading `now`. */
  function Tick(s: DroneState, motion: Attitude.Motion, now: real): (r: DroneState)
    ensures r.throttle == s.throttle && r.updateRequired == s.updateRequired
    ensures r.started == s.started && r.startupStage == s.startupStage
    ensures r.previousMotion == Some(motion)
  {
    var s1 := s.(mainLoopRateCount := s.mainLoopRateCount + 1);
    if !Changed(s, motion) then
      s1.(previousMotion := Some(motion))
    else
      var s2 := RateWindow(s1.(updateRateCount := s1.updateRateCount + 1,
                               previousMotion := Some(motion)), motion, now);
      if s2.started && s2.updateRequired then ArmedTick(s2, motion, now) else s2
  }

  /** A stale sample (or the very first one) only counts the tick and records the sample. */
  lemma StaleSampleSkipped(s: DroneState, motion: Attitude.Motion, now: real)
    requires !Changed(s, motion)
    ensures Tick(s, motion, now) ==
      s.(mainLoopRateCount := s.mainLoopRateCount + 1, previousMotion := Some(motion))
  {
  }

  /**
   * Controllers run, and motors are written, only on a tick whose sample
   * changed, after startup and after the first command.
   */
  lemma ControlOnlyWhenArmed(s: DroneState, motion: Attitude.Motion, now: real)
    requires !(Changed(s, motion) && s.started && s.updateRequired)
    ensures var r := Tick(s, motion, now);
      && r.pitch == s.pitch && r.roll == s.roll && r.yaw == s.yaw
      && r.writes == s.writes && r.current == s.current && r.yawOffset == s.yawOffset
  {
  }

  /** Every tick counts itself; a changed sample is also counted, unless the window restarts. */
  lemma TickCounters(s: DroneState, motion: Attitude.Motion, now: real)
    ensures var r := Tick(s, motion, now);
      if Changed(s, motion) && now - s.timeControl >= 1000.0 then
        r.mainLoopRateCount == 0 && r.updateRateCount == 0 && r.timeControl == now &&
        r.yawDrift == motion.yaw
      else
        r.mainLoopRateCount == s.mainLoopRateCount + 1 &&
        r.updateRateCount == s.updateRateCount + (if Changed(s, motion) then 1 else 0) &&
        r.timeControl == s.timeControl && r.yawDrift == s.yawDrift
  {
  }

  /** With no throttle an armed tick writes the idle command to all four motors. */
  lemma NoThrottleWritesIdle(s: DroneState, motion: Attitude.Motion, now: real)
    requires Changed(s, motion) && s.started && s.updateRequired
    requires ThrottleOutput(s.throttle) <= 0.0
    ensures Tick(s, motion, now).writes == s.writes + IdleWrites()
  {
  }

  /**
   * With throttle an armed tick rewrites all four motors exactly when some
   * command changed; the commands are recorded as current either way.
   */
  lemma WriteSuppression(s: DroneState, motion: Attitude.Motion, now: real)
    requires Changed(s, motion) && s.started && s.updateRequired
    requires ThrottleOutput(s.throttle) > 0.0
    ensures var r := Tick(s, motion, now);
      && InFlightRange(r.current)
      && r.writes == s.writes + (if r.current == s.current then [] else CommandWrites(r.current))
  {
  }

  /** The commands an armed tick computes, and what it records as current. */
  lemma ArmedTickCommands(s: DroneState, motion: Attitude.Motion, now: real)
    requires Changed(s, motion) && s.started && s.updateRequired
    ensures var r := Tick(s, motion, now);
      var p := Pid.Step(s.pitch, motion.pitch, now, None, None, None);
      var ro := Pid.Step(s.roll, -motion.roll, now, None, None, None);
      var y := Pid.Step(s.yaw, motion.yaw, now, None, None, None);
      && r.current == MotorCommands(Mix(p.output, ro.output, y.output), ThrottleOutput(s.throttle))
      && r.pitch == p.state && r.roll == ro.state && r.yaw == y.state
  {
    Pid.PartialOverrideIgnored(s.pitch, motion.pitch, now, Some(s.throttle));
    Pid.PartialOverrideIgnored(s.roll, -motion.roll, now, Some(s.throttle));
    Pid.PartialOverrideIgnored(s.yaw, motion.yaw, now, Some(s.throttle));
  }

  /** A tick only appends to the log, and only idle commands or pulses in [1100, 2000]. */
  lemma TickWritesFlightValues(s: DroneState, motion: Attitude.Motion, now: real)
    ensures var r := Tick(s, motion, now);
      && s.writes <= r.writes
      && forall i :: |s.writes| <= i < |r.writes| ==> FlightValue(r.writes[i].value)
  {
    if Changed(s, motion) {
      var s2 := RateWindow(s.(mainLoopRateCount := s.mainLoopRateCount + 1,
                              updateRateCount := s.updateRateCount + 1,
                              previousMotion := Some(motion)), motion, now);
      if s2.started && s2.updateRequired {
        var p := Pid.Step(s2.pitch, motion.pitch, now, Some(s2.throttle), None, None);
        var ro := Pid.Step(s2.roll, -motion.roll, now, Some(s2.throttle), None, None);
        var y := Pid.Step(s2.yaw, motion.yaw, now, Some(s2.throttle), None, None);
        var c := MotorCommands(Mix(p.output, ro.output, y.output), ThrottleOutput(s2.throttle));
        var w := TickWrites(ThrottleOutput(s2.throttle), c, s2.current);
        TickWritesInRange(ThrottleOutput(s2.throttle), c, s2.current);
        assert Tick(s, motion, now).writes == s.writes + w;
      }
    }
  }

  lemma TickKeepsStartupLogged(s: DroneState, motion: Attitude.Motion, now: real)
    requires StartupLogged(s)
    ensures StartupLogged(Tick(s, motion, now))
  {
    TickWritesFlightValues(s, motion, now);
  }

  // ---------------------------------------------------------------- commands

  /**
   * One parsed request of the command channel.  A value is `None` when its key
   * is absent or not a number; the `...Given` flags say whether the raw
   * `pitch`, `roll` and `yaw` keys are present and non-empty, which is what
   * selects the axes the gain keys apply to.
   */
  datatype Command = Command(
    throttle: Option<real>, pitch: Option<real>, roll: Option<real>, yaw: Option<real>,
    pgain: Option<real>, igain: Option<real>, dgain: Option<real>,
    pitchGiven: bool, rollGiven: bool, yawGiven: bool)

  /** The throttle key: reset on a rise from 0, and swallow the very first throttle. */
  function ThrottleCommand(s: DroneState, t: real): (r: DroneState)
    ensures r.updateRequired
  {
    var s0 :=
      if s.throttle == 0.0 && t > 0.0 then
        s.(pitch := Pid.ResetState(s.pitch), roll := Pid.ResetState(s.roll),
           yaw := Pid.ResetState(s.yaw), yawOffset := None)
      else s;
    var s1 := s0.(throttle := t);
    if !s1.updateRequired then s1.(throttle := 0.0, updateRequired := true) else s1
  }

  /** The throttle key leaves every target and gain as it was. */
  lemma ThrottleKeepsTuning(s: DroneState, t: real)
    ensures var r := ThrottleCommand(s, t);
      && r.pitch.target == s.pitch.target && r.roll.target == s.roll.target && r.yaw.target == s.yaw.target
      && r.pitch.kP == s.pitch.kP && r.pitch.kI == s.pitch.kI && r.pitch.kD == s.pitch.kD
      && r.roll.kP == s.roll.kP && r.roll.kI == s.roll.kI && r.roll.kD == s.roll.kD
      && r.yaw.kP == s.yaw.kP && r.yaw.kI == s.yaw.kI && r.yaw.kD == s.yaw.kD
  {
  }

  /** A numeric axis key sets that controller's target and nothing else. */
  function SetTarget(p: Pid.PidState, t: Option<real>): (r: Pid.PidState)
    ensures r.target == (if t.Some? then t.value else p.target)
    ensures r.(target := p.target) == p
  {
    if t.Some? then p.(target := t.value) else p
  }

  /** The gain keys, applied to one axis when that axis's key is present. */
  function SetGains(p: Pid.PidState, c: Command, given: bool): (r: Pid.PidState)
    ensures r.target == p.target && r.sumError == p.sumError && r.lastError == p.lastError
    ensures r.lastTime == p.lastTime && r.dt == p.dt && r.iMax == p.iMax
    ensures r.kP == (if c.pgain.Some? && given then c.pgain.value else p.kP)
    ensures r.kI == (if c.igain.Some? && given then c.igain.value else p.kI)
    ensures r.kD == (if c.dgain.Some? && given then c.dgain.value else p.kD)
  {
    var p1 := if c.pgain.Some? && given then p.(kP := c.pgain.value) else p;
    var p2 := if c.igain.Some? && given then p1.(kI := c.igain.value) else p1;
    if c.dgain.Some? && given then p2.(kD := c.dgain.value) else p2
  }

  /** `exports.update(params)`: throttle, then the three targets, then the gains. */
  function ApplyCommand(s: DroneState, c: Command): (r: DroneState)
    ensures r.writes == s.writes && r.started == s.started && r.startupStage == s.startupStage
    ensures r.previousMotion == s.previousMotion && r.current == s.current
    ensures r.mainLoopRateCount == s.mainLoopRateCount && r.updateRateCount == s.updateRateCount
  {
    var s1 := if c.throttle.Some? then ThrottleCommand(s, c.throttle.value) else s;
    var s2 := s1.(pitch := SetTarget(s1.pitch, c.pitch), roll := SetTarget(s1.roll, c.roll),
                  yaw := SetTarget(s1.yaw, c.yaw));
    s2.(pitch := SetGains(s2.pitch, c, c.pitchGiven), roll := SetGains(s2.roll, c, c.rollGiven),
        yaw := SetGains(s2.yaw, c, c.yawGiven))
  }

  /** The integrator fields `reset` clears. */
  predicate Cleared(p: Pid.PidState) {
    p.sumError == 0.0 && p.lastError == 0.0 && p.lastTime == 0.0
  }

  predicate SameIntegrator(p: Pid.PidState, q: Pid.PidState) {
    p.sumError == q.sumError && p.lastError == q.lastError && p.lastTime == q.lastTime
  }

  /**
   * The controllers are reset and the yaw offset cleared exactly when the old
   * throttle is 0 and the new one is positive; otherwise the integrators and
   * the offset are untouched.
   */
  lemma ResetOnThrottleRise(s: DroneState, c: Command)
    ensures var r := ApplyCommand(s, c);
      if c.throttle.Some? && s.throttle == 0.0 && c.throttle.value > 0.0 then
        Cleared(r.pitch) && Cleared(r.roll) && Cleared(r.yaw) && r.yawOffset.None?
      else
        SameIntegrator(r.pitch, s.pitch) && SameIntegrator(r.roll, s.roll) &&
        SameIntegrator(r.yaw, s.yaw) && r.yawOffset == s.yawOffset
  {
  }

  /** The first throttle command ever only enables updates; later ones set the throttle. */
  lemma FirstThrottleSwallowed(s: DroneState, c: Command)
    requires c.throttle.Some?
    ensures var r := ApplyCommand(s, c);
      r.updateRequired &&
      r.throttle == (if s.updateRequired then c.throttle.value else 0.0)
  {
  }

  /**
   * Targets follow their keys; a gain key changes only the gain it names and
   * only on the axes whose key is present in the same request.
   */
  lemma GainsOnNamedAxes(s: DroneState, c: Command)
    ensures var r := ApplyCommand(s, c);
      && r.pitch.target == (if c.pitch.Some? then c.pitch.value else s.pitch.target)
      && r.roll.target == (if c.roll.Some? then c.roll.value else s.roll.target)
      && r.yaw.target == (if c.yaw.Some? then c.yaw.value else s.yaw.target)
      && r.pitch.kP == (if c.pgain.Some? && c.pitchGiven then c.pgain.value else s.pitch.kP)
      && r.pitch.kI == (if c.igain.Some? && c.pitchGiven then c.igain.value else s.pitch.kI)
      && r.pitch.kD == (if c.dgain.Some? && c.pitchGiven then c.dgain.value else s.pitch.kD)
      && r.roll.kP == (if c.pgain.Some? && c.rollGiven then c.pgain.value else s.roll.kP)
      && r.roll.kI == (if c.igain.Some? && c.rollGiven then c.igain.value else s.roll.kI)
      && r.roll.kD == (if c.dgain.Some? && c.rollGiven then c.dgain.value else s.roll.kD)
      && r.yaw.kP == (if c.pgain.Some? && c.yawGiven then c.pgain.value else s.yaw.kP)
      && r.yaw.kI == (if c.igain.Some? && c.yawGiven then c.igain.value else s.yaw.kI)
      && r.yaw.kD == (if c.dgain.Some? && c.yawGiven then c.dgain.value else s.yaw.kD)
  {
    if c.throttle.Some? {
      ThrottleKeepsTuning(s, c.throttle.value);
    }
  }

  /** A request with no usable key changes nothing. */
  lemma EmptyCommandNoChange(s: DroneState)
    ensures ApplyCommand(s, Command(None, None, None, None, None, None, None, false, false, false)) == s
  {
  }

  lemma ApplyCommandKeepsStartupLogged(s: DroneState, c: Command)
    requires StartupLogged(s)
    ensures StartupLogged(ApplyCommand(s, c))
  {
  }

  /**
   * Commanding throttle 50 and pitch 10 and then throttle 0 idles all four
   * motors on the next tick with a new sample, whatever the attitude.
   */
  lemma ThrottleCutIdles(s: DroneState, motion: Attitude.Motion, now: real)
    requires s.started && s.updateRequired && Changed(s, motion)
    ensures var c1 := Command(Some(50.0), Some(10.0), None, None, None, None, None, true, false, false);
      var c2 := Command(Some(0.0), None, None, None, None, None, None, false, false, false);
      Tick(ApplyCommand(ApplyCommand(s, c1), c2), motion, now).writes == s.writes + IdleWrites()
  {
    var c1 := Command(Some(50.0), Some(10.0), None, None, None, None, None, true, false, false);
    var c2 := Command(Some(0.0), None, None, None, None, None, None, false, false, false);
    var s2 := ApplyCommand(ApplyCommand(s, c1), c2);
    assert s2.throttle == 0.0 && s2.updateRequired && s2.started && Changed(s2, motion);
    NoThrottleWritesIdle(s2, motion, now);
  }

  // ---------------------------------------------------------------- startup steps

  /** One timer callback of the startup chain: the next startup phase. */
  function StartupStep(s: DroneState): (r: DroneState)
    requires s.startupStage < StartupPhaseCount
    ensures r.startupStage == s.startupStage + 1
  {
    var stage := s.startupStage + 1;
    s.(writes := s.writes + Phase(s.startupStage), startupStage := stage,
       started := if stage == StartupPhaseCount then true else s.started)
  }

  /**
   * The state right after module load: the three controllers with `k_p` 0.1,
   * `k_i` 0, `k_d` 0 and `i_max` 1000, throttle 0, neither armed nor started,
   * and the load-time startup phase (all motors off) already run.
   */
  function AtLoad(): (r: DroneState)
    ensures r.pitch == r.roll == r.yaw
    ensures r.pitch.kP == 0.1 && r.pitch.kI == 0.0 && r.pitch.kD == 0.0 && r.pitch.iMax == Lmax
    ensures r.pitch.sumError == 0.0 && r.pitch.lastTime == 0.0 && r.pitch.target == 0.0
    ensures r.throttle == 0.0 && !r.updateRequired && !r.started && r.startupStage == 1
    ensures r.previousMotion.None? && r.yawOffset.None?
  {
    var c := Pid.Create(Some(0.1), Some(0.0), Some(0.0), None, Some(Lmax));
    DroneState(0.0, false, false, 1, None, Commands(0, 0, 0, 0), 0, 0, 0.0, 0.0, None,
               c, c, c, Phase(0))
  }

  lemma AtLoadStartupLogged()
    ensures StartupLogged(AtLoad()) && !AtLoad().started
    ensures AtLoad().writes == AllMotors(0)
  {
    assert StartupLog(1) == [] + Phase(0);
  }

  lemma StartupStepKeepsStartupLogged(s: DroneState)
    requires StartupLogged(s) && s.startupStage < StartupPhaseCount
    ensures StartupLogged(StartupStep(s))
  {
  }

  /** Arming is reached only through the full startup sequence, which the log begins with. */
  lemma ArmedOnlyAfterStartup(s: DroneState)
    requires StartupLogged(s) && s.started
    ensures s.startupStage == StartupPhaseCount
    ensures StartupLog(StartupPhaseCount) <= s.writes
  {
  }

  // ---------------------------------------------------------------- the object

  class FlightControl {
    var throttle: real
    var updateRequired: bool
    var started: bool
    var startupStage: nat
    var previousMotion: Option<Attitude.Motion>
    var currentFL: int
    var currentFR: int
    var currentBL: int
    var currentBR: int
    var mainLoopRateCount: nat
    var updateRateCount: nat
    var timeControl: real
    var yawDrift: real
    var yawOffset: Option<real>
    var writes: seq<PwmWrite>
    const pitchController: Pid.Controller
    const rollController: Pid.Controller
    const yawController: Pid.Controller
    const attitude: Attitude.Attitude
    ghost const Repr: set<object>

    function State(): DroneState
      reads this, pitchController, rollController, yawController
    {
      DroneState(throttle, updateRequired, started, startupStage, previousMotion,
                 Commands(currentFL, currentFR, currentBL, currentBR),
                 mainLoopRateCount, updateRateCount, timeControl, yawDrift, yawOffset,
                 pitchController.State(), rollController.State(), yawController.State(), writes)
    }

    ghost predicate Valid()
      reads this, Repr
    {
      && Repr == {this, pitchController, rollController, yawController} + attitude.Repr()
      && ControllersValid()
      && attitude.Valid()
      && LogFollowsStartup(startupStage, started, writes)
    }

    /** Module load: the controllers, the attitude filter, and the first (all-off) writes. */
    constructor ()
      ensures Valid() && fresh(Repr)
      ensures State() == AtLoad() && attitude.State() == Attitude.Initial()
    {
      throttle := 0.0;
      updateRequired := false;
      started := false;
      previousMotion := None;
      currentFL, currentFR, currentBL, currentBR := 0, 0, 0, 0;
      mainLoopRateCount, updateRateCount := 0, 0;
      timeControl := 0.0;
      yawDrift := 0.0;
      yawOffset := None;
      writes := Phase(0);
      startupStage := 1;
      var pc := new Pid.Controller(Some(0.1), Some(0.0), Some(0.0), None, Some(Lmax));
      var rc := new Pid.Controller(Some(0.1), Some(0.0), Some(0.0), None, Some(Lmax));
      var yc := new Pid.Controller(Some(0.1), Some(0.0), Some(0.0), None, Some(Lmax));
      var att := new Attitude.Attitude();
      pitchController, rollController, yawController, attitude := pc, rc, yc, att;
      assert pc.Valid() && rc.Valid() && yc.Valid() && att.Valid();
      assert fresh(att.Repr());
      Repr := {this, pc, rc, yc} + att.Repr();
      AtLoadStartupLogged();
    }

    /** The next callback of the startup timer chain; the last one arms the loop. */
    method AdvanceStartup()
      requires Valid() && startupStage < StartupPhaseCount
      modifies this
      ensures Valid() && State() == StartupStep(old(State()))
    {
      ghost var s := State();
      StartupStepKeepsStartupLogged(s);
      writes := writes + Phase(startupStage);
      startupStage := startupStage + 1;
      started := if startupStage == StartupPhaseCount then true else started;
      assert StartupLogged(StartupStep(s));
      assert State() == StartupStep(s);
    }

    /** The three controllers are distinct objects, each with its integral in bounds. */
    ghost predicate ControllersValid()
      reads this, pitchController, rollController, yawController
    {
      && pitchController != rollController && rollController != yawController
      && pitchController != yawController
      && pitchController.Valid() && rollController.Valid() && yawController.Valid()
    }

    /** `mainFunction`: one period of the control loop. */
    method MainFunction(m: Attitude.RawMotion, now: real, atan2: Attitude.Atan2)
      requires Valid() && Attitude.ClockOk(attitude.State(), now)
      modifies Repr
      ensures Valid() && Attitude.Ready(old(attitude.State()), now)
      ensures var a := Attitude.Step(old(attitude.State()), now, m, atan2);
        attitude.State() == a.state && State() == Tick(old(State()), a.motion, now)
    {
      ghost var s := State();
      var motion := attitude.GetAttitude(now, m, atan2);
      TickKeepsStartupLogged(s, motion, now);
      ControlTick(motion, now);
    }

    /** `mainFunction` after the attitude read: the sample gate, the rate window and the armed block. */
    method ControlTick(motion: Attitude.Motion, now: real)
      requires ControllersValid()
      modifies this, pitchController, rollController, yawController
      ensures ControllersValid() && State() == Tick(old(State()), motion, now)
    {
      ghost var s := State();
      mainLoopRateCount := mainLoopRateCount + 1;

      if previousMotion.None? {
        previousMotion := Some(motion);
      }

      // Only act on a sample that differs from the previous one
      if motion != previousMotion.value {
        updateRateCount := updateRateCount + 1;
        previousMotion := Some(motion);
        assert State() == s.(mainLoopRateCount := s.mainLoopRateCount + 1,
                             updateRateCount := s.updateRateCount + 1,
                             previousMotion := Some(motion));
        CloseRateWindow(motion, now);

        // Only set motors after startup
        if started && updateRequired {
          ArmedUpdate(motion, now);
        }
      } else {
        assert State() == s.(mainLoopRateCount := s.mainLoopRateCount + 1,
                             previousMotion := Some(motion));
      }
    }

    /** The once-a-second rate window of `mainFunction`. */
    method CloseRateWindow(motion: Attitude.Motion, tNow: real)
      modifies this
      ensures State() == RateWindow(old(State()), motion, tNow)
    {
      if tNow - timeControl >= 1000.0 {
        yawDrift := motion.yaw;
        timeControl := tNow;
        mainLoopRateCount := 0;
        updateRateCount := 0;
      }
    }

    /** The armed block of `mainFunction`: controllers, mixer, clamp and motor writes. */
    method ArmedUpdate(motion: Attitude.Motion, now: real)
      requires ControllersValid()
      modifies this, pitchController, rollController, yawController
      ensures ControllersValid() && State() == ArmedTick(old(State()), motion, now)
    {
      ghost var s := State();
      // If first time, set offset
      if yawOffset.None? || yawOffset == Some(0.0) {
        yawOffset := Some(motion.yaw);
      }

      var throttleOutput := ThrottleOutput(throttle);
      var pitchOutput, rollOutput, yawOutput := RunControllers(motion, now);

      var frontRightOutput := -rollOutput - pitchOutput - yawOutput;
      var backRightOutput := -rollOutput + pitchOutput + yawOutput;
      var frontLeftOutput := rollOutput - pitchOutput + yawOutput;
      var backLeftOutput := rollOutput + pitchOutput - yawOutput;

      var fr := FilterOutput(frontRightOutput + throttleOutput) + PwmMinRange;
      var fl := FilterOutput(frontLeftOutput + throttleOutput) + PwmMinRange;
      var br := FilterOutput(backRightOutput + throttleOutput) + PwmMinRange;
      var bl := FilterOutput(backLeftOutput + throttleOutput) + PwmMinRange;

      var c := Commands(fl, fr, bl, br);
      assert c == MotorCommands(Mix(pitchOutput, rollOutput, yawOutput), throttleOutput);
      WriteMotors(c, throttleOutput);
      ArmedTickFromParts(s, motion, now, yawOffset,
        Pid.Step(s.pitch, motion.pitch, now, Some(s.throttle), None, None),
        Pid.Step(s.roll, -motion.roll, now, Some(s.throttle), None, None),
        Pid.Step(s.yaw, motion.yaw, now, Some(s.throttle), None, None), c);
    }

    /** The three controller updates of a tick; roll is inverted by the sensor's mounting. */
    method RunControllers(motion: Attitude.Motion, now: real)
      returns (pitchOutput: real, rollOutput: real, yawOutput: real)
      requires ControllersValid()
      modifies pitchController, rollController, yawController
      ensures ControllersValid()
      ensures var p := Pid.Step(old(pitchController.State()), motion.pitch, now, Some(throttle), None, None);
        pitchController.State() == p.state && pitchOutput == p.output
      ensures var r := Pid.Step(old(rollController.State()), -motion.roll, now, Some(throttle), None, None);
        rollController.State() == r.state && rollOutput == r.output
      ensures var y := Pid.Step(old(yawController.State()), motion.yaw, now, Some(throttle), None, None);
        yawController.State() == y.state && yawOutput == y.output
    {
      pitchOutput := pitchController.Update(motion.pitch, now, Some(throttle), None, None);
      rollOutput := rollController.Update(-motion.roll, now, Some(throttle), None, None);
      yawOutput := yawController.Update(motion.yaw, now, Some(throttle), None, None);
    }

    /** The motor writes of a tick: idle without throttle, else the commands if any changed. */
    method WriteMotors(c: Commands, throttleOutput: real)
      modifies this
      ensures writes == old(writes) + TickWrites(throttleOutput, c, Commands(old(currentFL), old(currentFR), old(currentBL), old(currentBR)))
      ensures Commands(currentFL, currentFR, currentBL, currentBR) == c
      ensures throttle == old(throttle) && updateRequired == old(updateRequired)
      ensures started == old(started) && startupStage == old(startupStage)
      ensures previousMotion == old(previousMotion) && yawOffset == old(yawOffset)
      ensures mainLoopRateCount == old(mainLoopRateCount) && updateRateCount == old(updateRateCount)
      ensures timeControl == old(timeControl) && yawDrift == old(yawDrift)
    {
      if throttleOutput > 0.0 {
        if c.fl != currentFL || c.fr != currentFR || c.br != currentBR || c.bl != currentBL {
          writes := writes + [PwmWrite(FrontLeft, c.fl), PwmWrite(FrontRight, c.fr),
                              PwmWrite(BackLeft, c.bl), PwmWrite(BackRight, c.br)];
        }
      } else {
        writes := writes + [PwmWrite(FrontLeft, 1000), PwmWrite(FrontRight, 1000),
                            PwmWrite(BackLeft, 1000), PwmWrite(BackRight, 1000)];
      }
      currentFL := c.fl;
      currentFR := c.fr;
      currentBL := c.bl;
      currentBR := c.br;
    }

    /** `exports.update(params)`: the command handler. */
    method Update(c: Command)
      requires Valid()
      modifies this, pitchController, rollController, yawController
      ensures Valid() && State() == ApplyCommand(old(State()), c)
    {
      ghost var s := State();
      if c.throttle.Some? {
        UpdateThrottle(c.throttle.value);
      }
      UpdateTargets(c);
      UpdateGains(c);
      assert State() == ApplyCommand(s, c);
      assert attitude.Valid();
    }

    /** The throttle key of a command. */
    method UpdateThrottle(localThrottle: real)
      requires ControllersValid()
      modifies this, pitchController, rollController, yawController
      ensures ControllersValid() && State() == ThrottleCommand(old(State()), localThrottle)
      ensures startupStage == old(startupStage) && started == old(started) && writes == old(writes)
    {
      // Reset the controllers when the throttle rises from 0
      if throttle == 0.0 && localThrottle > 0.0 {
        pitchController.Reset();
        rollController.Reset();
        yawController.Reset();
        yawOffset := None;
      }
      throttle := localThrottle;
      // The first throttle command only enables updates
      if !updateRequired {
        throttle := 0.0;
        updateRequired := true;
      }
    }

    /** The pitch, roll and yaw keys: the controller targets. */
    method UpdateTargets(c: Command)
      requires ControllersValid()
      modifies pitchController, rollController, yawController
      ensures ControllersValid()
      ensures State() == old(State()).(pitch := SetTarget(old(State()).pitch, c.pitch),
                                       roll := SetTarget(old(State()).roll, c.roll),
                                       yaw := SetTarget(old(State()).yaw, c.yaw))
    {
      if c.pitch.Some? {
        pitchController.SetTarget(c.pitch.value);
      }
      if c.roll.Some? {
        rollController.SetTarget(c.roll.value);
      }
      if c.yaw.Some? {
        yawController.SetTarget(c.yaw.value);
      }
    }

    /**
     * The gain keys, applied to the axes whose key is present.  Each key sets
     * one field of one controller, so the axis-by-axis order here ends in the
     * same state as the key-by-key order of the handler.
     */
    method UpdateGains(c: Command)
      requires ControllersValid()
      modifies pitchController, rollController, yawController
      ensures ControllersValid()
      ensures State() == old(State()).(pitch := SetGains(old(State()).pitch, c, c.pitchGiven),
                                       roll := SetGains(old(State()).roll, c, c.rollGiven),
                                       yaw := SetGains(old(State()).yaw, c, c.yawGiven))
    {
      UpdateAxisGains(pitchController, c, c.pitchGiven);
      UpdateAxisGains(rollController, c, c.rollGiven);
      UpdateAxisGains(yawController, c, c.yawGiven);
    }

    /** The gain keys of a command on one controller. */
    static method UpdateAxisGains(ctrl: Pid.Controller, c: Command, given: bool)
      requires ctrl.Valid()
      modifies ctrl
      ensures ctrl.Valid() && ctrl.State() == SetGains(old(ctrl.State()), c, given)
    {
      if c.pgain.Some? && given {
        ctrl.UpdateKp(c.pgain.value);
      }
      if c.igain.Some? && given {
        ctrl.UpdateKi(c.igain.value);
      }
      if c.dgain.Some? && given {
        ctrl.UpdateKd(c.dgain.value);
      }
    }
  }
}
