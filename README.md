# Quadrotor flight control — a verified model

This project models the control path of a small Raspberry Pi quadrotor:

- `Pid`: the PID controller class. It covers the constructor defaults, the
  interval it measures or substitutes, the 0.5 deadband, the integral clamp
  against `i_max`, the derivative term, the gain override and the setters.
- `Kalman`: the one-dimensional angle/bias Kalman filter. It models the
  predict and correct steps on `angle`, `bias`, `rate` and the 2×2
  covariance `P`. `P` is kept as an in-place array of four entries.
- `Attitude`: the wrapper that turns one raw gyro and accelerometer sample
  into pitch, roll and yaw. It uses two Kalman filters and a yaw
  accumulator with a constant drift rate.
- `Drone`: the flight program. It covers:
  - the startup sequence of PWM writes;
  - the control tick (`mainFunction`), with its stale-sample and arming
    gates, the quad-X mixer, the `FilterOutput` clamp and write
    suppression;
  - the once-a-second rate window;
  - the HTTP command handler (`exports.update`).
- `DroneTest`: the bench program. It models the complementary filter and
  the diagnostic tick `fff`, which counts changed raw samples and tracks
  the running extremes of the heading error.
- `Wrappers`: the `Option` type. `None` stands for JavaScript's
  `undefined`.

How the model is built:

- Each object that the program updates in place is a class with the
  source's fields. Each class method is proved equal to a pure function of
  the old state. The properties are then proved as lemmas about those
  functions.
- PWM writes are not performed. They are appended to a log of
  `(motor, value)` events.
- All arithmetic is over `real`.
- The clock (`Date.now()`) is an explicit `now` parameter, in
  milliseconds.
- `Math.atan2` is a function parameter whose behaviour is not specified.
- The orientation computed by the Madgwick filter is an input.

## Model

| member | source | states |
|---|---|---|
| Pid.Create | core/pid.js:19-34 | `k_p` is the given number, or 1 when none is given. `k_i`, `k_d`, `dt` and `i_max` default to 0. Sum, last error, last time and target start at 0, and the integral starts within its limit. |
| Pid.MeasuredDt | core/pid.js:45-54 | Definition of the measured interval, restated case by case: the configured one when set, 0 on the first call (`lastTime` 0), the clock difference in seconds after that. The promises are in `EffectiveDt`, `FirstUpdateUsesUnitDt` and `ConfiguredDtUsed`. |
| Pid.NextLastTime | core/pid.js:46-54 | Definition of the recorded time, restated case by case: the clock only when no interval is configured, otherwise `lastTime` kept. The promises are in `FirstUpdateUsesUnitDt`, `ConfiguredDtUsed` and `ResetRestartsTiming`. |
| Pid.EffectiveDt | core/pid.js:45-57 | The interval is never 0. A configured interval is used unchanged. Without one it is 1 on the first call, and afterwards the clock difference in seconds, `(now - lastTime)/1000`, except that a measured 0 (two calls in the same millisecond) becomes 1. Any nonzero measurement is used as measured. |
| Pid.ApplyDeadband | core/pid.js:61-68 | An error strictly inside (-0.5, 0.5) becomes 0. Any other error is kept. |
| Pid.ClampIntegral | core/pid.js:70-74 | With `i_max > 0` the sum is bounded by `i_max` and saturates to the limit of its own sign. Without a limit, or within it, the sum is unchanged. |
| Pid.Output | core/pid.js:79-86 | Definition of the P+I+D output, restated per branch: the override gains when all three are truthy, the stored ones otherwise, and zero for zero errors. The promises are in `StoredGainsLaw` and `PartialOverrideIgnored`. |
| Pid.Step | core/pid.js:41-87 | `update` changes only the sum, the last error and the last time. The last error becomes the error after the deadband. The integral stays within `i_max`. A configured interval keeps the last time. The new sum is the old sum plus the error times the effective interval, clamped by `i_max`. |
| Pid.ResetState | core/pid.js:101-105 | Reset zeroes the sum, the last error and the last time, and keeps the gains, `dt`, `i_max` and the target. |
| Pid.StepKeepsIntegralLimit | core/pid.js:70-74 | `|sumError| <= i_max` is an invariant of `update`. |
| Pid.DeadbandFreezesIntegral | core/pid.js:62-77 | Inside the deadband the sum is unchanged, the last error becomes 0 and the output has no P term. |
| Pid.DeadbandEdgesKept | core/pid.js:63-68 | Errors of exactly ±0.5 are not zeroed. |
| Pid.FirstUpdateUsesUnitDt | core/pid.js:45-57 | On a first call without a configured interval, the divisor is 1 and the last time becomes `now`. |
| Pid.ConfiguredDtUsed | core/pid.js:45-57 | A configured nonzero interval is used as is and leaves the last time untouched. |
| Pid.StoredGainsLaw | core/pid.js:79-86 | Unless all three override gains are truthy, the output is `k_p*e + k_i*sum' + k_d*(e - lastError)/dt` with the stored gains. |
| Pid.PartialOverrideIgnored | core/pid.js:79-86 | A `kp` override without `ki` and `kd` gives exactly the same step as no override. |
| Pid.ResetRestartsTiming | core/pid.js:101-105 | After a reset the next update measures from scratch. The last time becomes `now`, and the sum is the clamped error times the unit interval. |
| Pid.ProportionalExample | core/pid.js:59-86 | With `k_p=1`, `k_i=k_d=0`, target 10, measurement 0 and dt 1, the output is 10. |
| Pid.Controller.constructor | core/pid.js:8-35 | The object's fields are those of `Create`. |
| Pid.Controller.SetTarget | core/pid.js:37-39 | Only the target changes. |
| Pid.Controller.Update | core/pid.js:41-87 | The new fields and the returned output are those of `Step`. |
| Pid.Controller.UpdateKp | core/pid.js:89-91 | Only `k_p` changes. |
| Pid.Controller.UpdateKi | core/pid.js:93-95 | Only `k_i` changes. |
| Pid.Controller.UpdateKd | core/pid.js:97-99 | Only `k_d` changes. |
| Pid.Controller.Reset | core/pid.js:101-105 | The fields become `ResetState` of the old ones. |
| Kalman.Initial | core/kalman.js:4-13 | The noise constants are 0.001, 0.003 and 0.0003. `P` is all zero, and bias, rate and angle are 0. |
| Kalman.Predict | core/kalman.js:21-32 | `rate = newRate - bias` and `angle += dt*rate`. The bias and the noise constants are unchanged. |
| Kalman.InnovationVariance | core/kalman.js:37 | Definition of `S`, restated: it exceeds `P00` by `R_measure`. The promises are in `HealthyVariancePositive` and `HealthyGainBounds`. |
| Kalman.PredictedVariance | core/kalman.js:29-37 | `S` as it will be after the predict step, for any rate: it equals the innovation variance of `Predict(s, newRate, dt)`. `getAngle` divides by it. |
| Kalman.Gain0 | core/kalman.js:41 | Definition of `K0 = P00/S`, restated as `K0 * S == P00`. The promise is in `HealthyGainBounds`. |
| Kalman.Gain1 | core/kalman.js:42 | Definition of `K1 = P10/S`, restated as `K1 * S == P10`. |
| Kalman.HealthyGainBounds | core/kalman.js:37-42 | For a healthy filter `S >= R_measure > 0` and the angle gain lies in [0, 1). |
| Kalman.Correct | core/kalman.js:34-60 | The angle and the bias move by the gains `P00/S` and `P10/S` times the innovation. |
| Kalman.Step | core/kalman.js:16-63 | `getAngle` never changes the three noise constants. |
| Kalman.InitialHealthy | core/kalman.js:4-13 | The initial filter has non-negative process noise, positive measurement noise and a positive semidefinite `P`. |
| Kalman.PredictZeroDt | core/kalman.js:24-32 | With `dt = 0` the predict step leaves the angle and `P` unchanged. |
| Kalman.StepKeepsSymmetry | core/kalman.js:29-60 | If `P01 == P10` before the step, it holds after. |
| Kalman.ZeroInnovationFixed | core/kalman.js:46-50 | A measurement equal to the predicted angle leaves the angle and the bias at their predicted values. |
| Kalman.QuadraticFormNonNegative | core/kalman.js:29 | For a positive semidefinite `P`, the new `P00` grows by a non-negative quadratic form. |
| Kalman.HealthyVariancePositive | core/kalman.js:37 | For a healthy filter and `dt >= 0`, `S >= R_measure > 0`, so the gain division is defined. |
| Kalman.PredictKeepsHealthy | core/kalman.js:29-32 | For `dt >= 0`, the predict step keeps `P` positive semidefinite. |
| Kalman.CorrectKeepsHealthy | core/kalman.js:54-60 | The correct step keeps `P` positive semidefinite. |
| Kalman.StepKeepsHealthy | core/kalman.js:16-63 | Health is an invariant of `getAngle` for `dt >= 0`. |
| Kalman.CorrectedAngleBetween | core/kalman.js:46-49 | For a healthy filter the corrected angle lies between the predicted angle and the measurement. |
| Kalman.Kalman.constructor | core/kalman.js:4-13 | The fields hold `Initial()`, and `P` is a fresh array. |
| Kalman.Kalman.GetAngle | core/kalman.js:16-63 | The new fields are `Step` of the old ones, and the returned value is the stored angle. |
| Kalman.Kalman.TimeUpdate | core/kalman.js:21-32 | The fields become `Predict` of the old ones. |
| Kalman.Kalman.MeasurementUpdate | core/kalman.js:34-60 | The fields become `Correct` of the old ones. |
| Attitude.ToDegree | core/attitude.js:17-19 | `d * pi == radian * 180`, with pi = 3.14159265359. |
| Attitude.ToRadian | core/attitude.js:21-23 | `r * 180 == degree * pi`. |
| Attitude.DegreeRadianRoundTrip | core/attitude.js:17-23 | The two conversions are inverse in both orders. |
| Attitude.GyroToDegree | core/attitude.js:25-27 | The raw rate divided by 16.4. |
| Attitude.AccelToDegree | core/attitude.js:29-31 | The raw acceleration divided by 16384. |
| Attitude.GetAccY | core/attitude.js:41-43 | Definition of the accelerometer roll in degrees, restated as `d * pi == atan2(accel_y, accel_z) * 180`. The wiring promise is in `AxisWiring`. |
| Attitude.GetAccX | core/attitude.js:45-47 | Definition of the accelerometer pitch in degrees, restated as `d * pi == atan2(accel_x, accel_z) * 180`. The wiring promise is in `AxisWiring`. |
| Attitude.Initial | core/attitude.js:10-15 | Three fresh Kalman filters. `lastTime` and `y` are undefined. |
| Attitude.Interval | core/attitude.js:62-71 | While `lastTime` is undefined, the interval is 0. Afterwards it is `(now - lastTime)/1000` seconds, non-negative when the clock has not gone back. |
| Attitude.StepWith | core/attitude.js:57-91 | The raw branch records `now` as the last time and never touches `kaZ`. |
| Attitude.Step | core/attitude.js:57-91 | The same facts, with the interval measured from the state. |
| Attitude.HealthyReady | core/attitude.js:70-79 | With healthy filters and a clock that has not gone back, both Kalman steps have a nonzero `S`. |
| Attitude.StepKeepsHealthy | core/attitude.js:57-91 | `getAttitude` keeps both filters healthy. |
| Attitude.FirstCallZeroInterval | core/attitude.js:62-80 | On the first call the interval is 0. The yaw is 0, and both Kalman predict steps leave angle and `P` unchanged. |
| Attitude.YawAccumulates | core/attitude.js:80 | Yaw grows by `(gyro_z/16.4 + 2.6)*dt` each call, so the drift constant is always added. |
| Attitude.YawAlwaysMoves | core/attitude.js:80 | `gyro_z/16.4 + 2.6` is never 0 for an integer gyro reading, so once `y` is set, every call with a nonzero interval changes the yaw. |
| Attitude.AxisWiring | core/attitude.js:78-90 | Pitch is `kaX` fed with accel x/z and gyro x. Roll is `kaY` fed with accel y/z and gyro y. `kaZ` is unused. The record holds the filters' new angles and the accumulator. |
| Attitude.Attitude.constructor | core/attitude.js:11-15 | The object holds `Initial()` in fresh filters. |
| Attitude.Attitude.GetAttitude | core/attitude.js:57-91 | The new state and the returned record are those of `Step`. |
| Attitude.Attitude.ReadClock | core/attitude.js:62-73 | An undefined previous time and yaw integral are defaulted (the time to the current reading, the integral to 0); the interval is the time since the previous reading in seconds, zero on the first call; the new previous time is the current reading. |
| Attitude.Attitude.FilterAxes | core/attitude.js:78-79 | Pitch is one Kalman step of `kaX` on accelerometer x/z and gyro x; roll is one step of `kaY` on accelerometer y/z and gyro y; the returned values are the two new angles. |
| Drone.FilterOutput | core/drone.js:100-112 | An integer in [0, 900]. On [0, 900] it is the floor of its input, below it is 0, and at or above 900 it is 900. |
| Drone.FilterOutputMonotone | core/drone.js:100-112 | The clamp is monotone. |
| Drone.TransferFunction | core/drone.js:126-134 | Values in [-400, 400] are kept. Values outside saturate to ±400 by sign. |
| Drone.TransferFunctionIdempotentOdd | core/drone.js:126-134 | The saturation is idempotent and odd. |
| Drone.MixDecomposes | core/drone.js:280-301 | The four attitude corrections sum to 0. Front minus back is -4·pitch, left minus right is 4·roll, and the two diagonals differ by 4·yaw. |
| Drone.ThrottleOutput | core/drone.js:285 | The throttle percentage scaled to the 900-wide PWM range; a throttle in [0, 100] gives a value in [0, 900]. |
| Drone.Mix | core/drone.js:297-301 | Pitch lowers the front pair and raises the back pair by `2 * pitch`; roll raises the left pair and lowers the right by `2 * roll`; yaw raises the FL/BR diagonal and lowers the FR/BL one by `2 * yaw`. |
| Drone.MotorCommand | core/drone.js:303-306 | Each motor value computed under throttle lies in [1100, 2000]. |
| Drone.MotorCommands | core/drone.js:303-306 | All four commands lie in [1100, 2000]. |
| Drone.LevelMixIsEven | core/drone.js:297-306 | With zero corrections all four motors receive the same command. |
| Drone.MotorCommandInRange | core/drone.js:303-306 | A raw value within [0, 900] yields 1100 plus its floor. |
| Drone.TickWrites | core/drone.js:372-389 | A throttle output ≤ 0 writes 1000 to all four motors. Otherwise nothing is written exactly when the commands equal the current ones. |
| Drone.TickWritesInRange | core/drone.js:372-389 | Every value an armed tick writes is the idle 1000 or lies in [1100, 2000]. |
| Drone.LastWriteTake | core/drone.js:155-189 | The last value written to a motor in a prefix of the log. |
| Drone.PulsedTake | core/drone.js:155-189 | The motors given the 1050 pulse in a prefix of the log. |
| Drone.PhaseInStartupWrites | core/drone.js:155-189 | Each startup phase's writes (the load-time block, then each timer callback) are one slice of the whole startup sequence. |
| Drone.Phase | core/drone.js:155-189 | Each startup phase issues exactly the writes between its two boundaries in the startup sequence. |
| Drone.StartupWrites | core/drone.js:155-189 | The startup sequence has 20 writes, and its last write returns back left to 1000. |
| Drone.StartupLogPrefix | core/drone.js:155-189 | After k startup phases the log is the first writes of the startup sequence, up to the end of phase k. |
| Drone.StartupEndsIdle | core/drone.js:155-189 | After startup every motor's last write is 1000. |
| Drone.PulsedNone | core/drone.js:155-170 | A log without a 1050 write pulsed no motor. |
| Drone.StartupFrontPulses | core/drone.js:172-181 | The first pulses go to front left, then front right. |
| Drone.StartupPulseOrder | core/drone.js:155-189 | Startup pulses the motors in the order FL, FR, BR, BL. |
| Drone.ArmedTick | core/drone.js:273-398 | After an armed tick every recorded command lies in [1100, 2000]. |
| Drone.ArmedTickAsWritten | core/drone.js:273-412 | As written, an armed tick steps the three controllers and sets the yaw offset exactly as the intended tick does. It then appends the four zero writes of the handler and keeps the recorded commands. |
| Drone.AsWrittenArmedTickStopsMotors | core/drone.js:308-324 | See Findings. As written, an armed tick leaves every motor's last write at 0, records no command, and differs from the intended tick. |
| Drone.Tick | core/drone.js:237-400 | A tick keeps the throttle, the arming flags and the startup stage, and records the sample as the previous motion. |
| Drone.RateWindow | core/drone.js:258-270 | After 1000 ms the yaw sample is recorded, the window restarts at `now` and both counters restart at 0; otherwise nothing changes. No other field is touched. |
| Drone.StaleSampleSkipped | core/drone.js:241-250 | An unchanged sample, or the very first one, only increments the loop counter and stores the sample. |
| Drone.ControlOnlyWhenArmed | core/drone.js:248-273 | Controllers run and motors are written only on a changed sample with `started && updateRequired`. |
| Drone.TickCounters | core/drone.js:241-270 | The loop counter counts every tick and the update counter counts changed samples. On a changed sample at least 1000 ms after the window start, both restart and the window and the yaw drift reference move. |
| Drone.NoThrottleWritesIdle | core/drone.js:285-389 | With throttle output ≤ 0, an armed tick writes exactly the idle 1000 on all four motors. |
| Drone.WriteSuppression | core/drone.js:372-398 | With positive throttle the motors are rewritten only when some command differs from the current ones. The current ones become the new commands. |
| Drone.ArmedTickCommands | core/drone.js:281-306 | The commands are the clamped mix of the three controllers run on pitch, negated roll and yaw with their stored gains. The throttle passed as `kp` has no effect. |
| Drone.TickWritesFlightValues | core/drone.js:370-389 | A tick only appends to the log, and every value appended is 1000 or in [1100, 2000]. |
| Drone.TickKeepsStartupLogged | core/drone.js:237-400 | A tick keeps the startup invariant: the log starts with the completed startup writes. |
| Drone.ThrottleCommand | core/drone.js:435-451 | After a throttle command `updateRequired` holds. |
| Drone.SetGains | core/drone.js:468-512 | Gain keys change only gains. Each gain takes its key's value exactly when the key is numeric and the axis is named. |
| Drone.SetTarget | core/drone.js:453-466 | A numeric axis key sets that controller's target; nothing else in the controller changes. |
| Drone.ThrottleKeepsTuning | core/drone.js:435-451 | The throttle key leaves every target and gain unchanged. |
| Drone.ApplyCommand | core/drone.js:431-513 | A command leaves the write log, the startup state, the previous motion, the current commands and the counters unchanged. |
| Drone.ResetOnThrottleRise | core/drone.js:438-443 | The three controllers are reset and the yaw offset cleared exactly when the old throttle is 0 and the new one is positive. Otherwise integrators and offset are untouched. |
| Drone.FirstThrottleSwallowed | core/drone.js:445-450 | The first throttle command leaves throttle 0 and sets `updateRequired`. Later ones set throttle to the value. |
| Drone.GainsOnNamedAxes | core/drone.js:453-512 | Each target changes only when its key is numeric. Each gain changes only on the axes whose key is present in the same command. |
| Drone.EmptyCommandNoChange | core/drone.js:431-513 | A command with no numeric key changes nothing. |
| Drone.ApplyCommandKeepsStartupLogged | core/drone.js:431-513 | Commands keep the startup invariant. |
| Drone.ThrottleCutIdles | core/drone.js:372-389 | Throttle 50 with a pitch target, then throttle 0, makes the next armed changed tick write exactly the idle command. |
| Drone.AtLoadStartupLogged | core/drone.js:155-158 | The load state satisfies the startup invariant. It is not started (`started = false`, line 91), and its log is the four all-off writes of lines 155-158. |
| Drone.AtLoad | core/drone.js:50-158 | At load the three controllers are equal, with `k_p` 0.1, `k_i` and `k_d` 0, `i_max` 1000 and a zero integrator. The throttle is 0, nothing is armed or started, one startup phase has run, and no motion or yaw offset is recorded. |
| Drone.StartupStep | core/drone.js:160-196 | Each timer callback runs the next startup phase and advances the stage by one. |
| Drone.StartupStepKeepsStartupLogged | core/drone.js:160-196 | The startup invariant holds across the callbacks. `started` is set by the last one only. |
| Drone.ArmedOnlyAfterStartup | core/drone.js:187-189 | Once started, all eight startup phases (the load-time writes and the seven timer callbacks) have run and their writes open the log. |
| Drone.FlightControl.constructor | core/drone.js:29-158 | Module load. The fields are `AtLoad()`, the attitude filter is fresh, and all objects are fresh and distinct. |
| Drone.FlightControl.AdvanceStartup | core/drone.js:160-196 | The fields become `StartupStep` of the old ones. |
| Drone.FlightControl.MainFunction | core/drone.js:237-400 | It reads the attitude, then the fields become `Tick` of the old ones. |
| Drone.FlightControl.ControlTick | core/drone.js:241-399 | The gates and the window, then the armed update. |
| Drone.FlightControl.CloseRateWindow | core/drone.js:258-270 | The fields become `RateWindow` of the old ones. |
| Drone.FlightControl.ArmedUpdate | core/drone.js:273-398 | The fields become `ArmedTick` of the old ones. |
| Drone.FlightControl.RunControllers | core/drone.js:293-295 | Each controller takes one `Pid.Step` on its adjusted input. |
| Drone.FlightControl.WriteMotors | core/drone.js:370-398 | It appends `TickWrites` to the log and records the commands. Nothing else changes. |
| Drone.FlightControl.Update | core/drone.js:431-513 | The fields become `ApplyCommand` of the old ones. |
| Drone.FlightControl.UpdateThrottle | core/drone.js:435-451 | The fields become `ThrottleCommand` of the old ones; the startup stage, `started` and the write log are untouched. |
| Drone.FlightControl.UpdateTargets | core/drone.js:453-466 | Each axis with a numeric key gets that target. |
| Drone.FlightControl.UpdateGains | core/drone.js:468-512 | Each axis gets `SetGains` for its presence flag. |
| Drone.FlightControl.UpdateAxisGains | core/drone.js:468-512 | One controller gets the gain keys that apply to its axis. |
| DroneTest.BlendBetween | core/dronetest.js:40-41 | The weights 0.97 and 0.03 sum to 1, so an angle equal to the accelerometer angle is a fixed point. The blend lies between the two angles and shrinks their distance to 97 %. |
| DroneTest.Initial | core/dronetest.js:43-111 | At load there is no reference sample and no recorded orientation. The counters, sums and clock are 0, and `h` starts below `l`. |
| DroneTest.Blend | core/dronetest.js:73-77 | The blend moves from the accelerometer angle by 0.97 of the difference. |
| DroneTest.Interval | core/dronetest.js:52-58 | The first call (`time_control` 0) measures 0; after that the interval is the clock difference in seconds. |
| DroneTest.FilterStepWith | core/dronetest.js:60-78 | The filter records `now` and changes only the two angles; out of band they move by the gyro integration alone. |
| DroneTest.FilterStep | core/dronetest.js:47-79 | One filter call records `now` and changes only the two angles. |
| DroneTest.AccAnglesInDegrees | core/dronetest.js:72-76 | The accelerometer angles are the degree conversion of `atan2(y, z)` and `atan2(x, z)`. |
| DroneTest.FilterLaw | core/dronetest.js:47-79 | Pitch integrates `+gyr[0]*dt` and roll `-gyr[1]*dt`. Both are blended exactly when the magnitude is strictly inside (1.5, 100). The filter records `now` and changes nothing else. |
| DroneTest.FirstFilterCallNoIntegration | core/dronetest.js:54-60 | On the first call `time_control` is 0, so the interval is 0 and the gyro adds nothing. |
| DroneTest.OutOfBandIntegratesOnly | core/dronetest.js:63-69 | Out of band only the gyro integration happens. |
| DroneTest.SteadyAngleKept | core/dronetest.js:68-77 | In band, with no rotation and angles already at the accelerometer's, the angles stay put. |
| DroneTest.Accumulate | core/dronetest.js:188-190 | A drift sum is defined exactly when it was defined and an orientation has been recorded. |
| DroneTest.HeadingError | core/dronetest.js:211 | The heading error is defined exactly once a heading is recorded, and it is the heading minus the recorded one. |
| DroneTest.CountSample | core/dronetest.js:180-207 | The reference is the first sample ever seen. The update counter grows exactly when the sample differs from a reference already set, and the loop counter grows on every call. A drift sum stays defined only while it was defined and an orientation is recorded. Nothing outside the reference, sums and counters changes. |
| DroneTest.TrackHeading | core/dronetest.js:211-219 | `h` only grows, `l` only shrinks, a defined heading error lies between them afterwards, and nothing else changes. |
| DroneTest.DiagnoseBeforeWindow | core/dronetest.js:176-219 | The updates of `fff` before its window test: the reference is the first sample ever seen, the update counter grows exactly when the sample differs from a set reference, the loop counter grows by one, a defined heading error lies between `l` and `h`, and the clock and filter angles are untouched. |
| DroneTest.CloseWindow | core/dronetest.js:224-278 | Inside the window nothing changes. The reset never touches `h`, `l`, the reference sample or the filter angles. |
| DroneTest.Diagnose | core/dronetest.js:176-278 | After one run of `fff` the reference is the first sample ever seen, and the filter angles are untouched. |
| DroneTest.RunningBounds | core/dronetest.js:110-111 | `h` only grows and `l` only shrinks. Once the heading error is defined, `l <= ev <= h` after the tick, with `h` and `l` the running max and min. Before that both are untouched. |
| DroneTest.CountsAgainstFirstSample | core/dronetest.js:180-207 | The reference is set once, to the first sample. The update counter increments exactly when the sample differs from it on some axis. The loop counter increments every tick. |
| DroneTest.RunCountsAgainstFirstSample | core/dronetest.js:180-207 | Over a run of ticks inside one window, the update counter grows by the number of samples that differ from the run's first sample, not from their predecessor. It starts from a bench with no reference sample, which in practice means the first window after load; `RunWithReference` is the statement for a running bench. |
| DroneTest.RunWithReference | core/dronetest.js:198-207 | The same count for a running bench whose reference is already set: the counter grows by the number of samples in the run that differ from that reference. |
| DroneTest.WindowRestarts | core/dronetest.js:224-276 | At ≥ 1000 ms the counters and drift sums restart at 0. The orientation is recorded, and `time_control` becomes `tNow`. |
| DroneTest.TestBench.constructor | core/dronetest.js:39-115 | The globals' initial values, with `h = -99999` and `l = 99999`. |
| DroneTest.TestBench.ComplementaryFilter | core/dronetest.js:47-79 | The globals become `FilterStep` of the old ones. |
| DroneTest.TestBench.Fff | core/dronetest.js:176-278 | The globals become `Diagnose` of the old ones. |
| DroneTest.TestBench.Record | core/dronetest.js:176-219 | The updates before the window test. |
| DroneTest.TestBench.Count | core/dronetest.js:180-207 | The reference, the drift sums and the two counters. |
| DroneTest.TestBench.Track | core/dronetest.js:211-219 | The running maximum and minimum. |
| DroneTest.TestBench.CloseWindowAt | core/dronetest.js:224-276 | The window reset. |

## Left out

- Hardware. The `mpu6050-dmp` reads and initialisation are left out; `attitude.initialize()` and `mpu.initializeRaw()` are taken to succeed. The `pigpio` GPIO and PWM range and frequency setup are left out; writes go to a log. `core/calibrate.js` is not part of this model.
- Timers and HTTP: NanoTimer, the `setTimeout` dwell times and the HTTP server. Startup is the load-time block of writes followed by the sequence of its callbacks. The parsed query is a record of optional numbers with presence flags for the axis keys.
- The clock. Every `Date.now()` in one tick is the same `now`.
- Telemetry and logging (core/drone.js:308-368 and all console output). The tick is modelled as if the telemetry block were absent; what that block does as written is under Findings.
- `setTransferFunction` (core/drone.js:136-138). The PID class has no such method, so the flight program as written fails when it loads. The model assumes these three lines are absent, and `transferFunction` is modelled on its own.
- The exception handler (core/drone.js:401-412). Only its four zero writes are modelled, through `ArmedTickAsWritten`. `clearInterval(mainFunction)` is passed the function rather than the timer, so it stops nothing. The rethrow at line 411 leaves the timer callback; what the timer library does with that exception, plausibly ending the program, is not modelled.
- `adjustYaw` and `safeRange`. Neither is scheduled nor has any effect.
- The Madgwick filter (`ahrs`). Its Euler angles are an input. The bench's drift sums over them are modelled (`rollDrift`, `pitchDrift`, `yawDrift`, with `None` for NaN); their values are unspecified because the angles are.
- Bench-only bookkeeping: `cca`, `ccsum`, `mean`, `cc`, `yaw_sum_drift`, `driftTimeControl`, `l_attitude`, and the bench's `yaw_drift_rate_s` (core/dronetest.js:99, read at line 231 only to compute `yaw_sum_drift`). They feed only logging.
- The bench's globals that are never read: `offset_*_drift` (core/dronetest.js:96-97).
- The commented-out code.
- The DMP branch of the attitude wrapper. The model covers the raw branch only.
- `gyro_to_radian` and `accel_to_radian`. They call unqualified functions that do not exist, so they fail as written.
- The PID's `currentValue` field. It is read only in the call that writes it (core/pid.js:42, 59), so the model passes it to `Step` as a parameter instead of storing it.
- The bench's `to_degree` and `to_radian` (core/dronetest.js:81-87). They are identical to the attitude wrapper's and are modelled once, as `Attitude.ToDegree` and `Attitude.ToRadian`.
- Floating point. Arithmetic is exact over the reals, so rounding, NaN and Infinity are not modelled. An undefined global that JavaScript would turn into NaN is `None`.
- `parseInt`. `FilterOutput`'s truncation is floor on [0, 900]; the way `parseInt` stringifies tiny numbers is not modelled.
- `isNaN` versus `parseFloat`. A key that `isNaN` accepts but `parseFloat` turns into NaN (the empty string) is not modelled; a numeric key is a present value.
- Kalman.Kalman.GetAngle: requires `S != 0`, because the source divides by `S` without a guard.
- Attitude.Attitude.GetAttitude: requires a clock that has not gone back since the previous call. With it, `S > 0` always holds; a clock that goes back, and could make `S` zero, is outside the model.
- Drone.FlightControl.Update: sets the gains axis by axis rather than key by key. The final state is the same because each setter changes one field of one controller.

## Findings

| source | as written | input that shows it | evidently intended | confidence | as-written member | corrected member |
|---|---|---|---|---|---|---|
| core/drone.js:314-324 | The telemetry block calls `getCurrentP`, `getCurrentI` and `getCurrentD`, which the PID class does not define. The first armed tick throws at line 314. The handler at lines 401-412 then writes 0 to all four motors, before the motor block runs and before `currentFL..BR` are recorded, and rethrows at line 411. | Any tick after startup and after the first throttle command whose attitude sample differs from the previous one. This presumes lines 136-138 absent: as written the program already fails at load in `setTransferFunction` (see "## Left out"), so no tick runs. | Telemetry reads the controllers without failing, and the tick goes on to the mixer and the guarded motor writes. | not executed | Drone.AsWrittenArmedTickStopsMotors | Drone.WriteSuppression |
