/**
 * The PID controller of the flight core (class `Controller`).
 *
 * `PidState` is the controller's state as a value and `Step` is one call of
 * `update` on it; the class `Controller` holds the same fields and its methods
 * are proved to follow these functions.  Times are in milliseconds, as the
 * clock the source reads.
 */
module Pid {
  import opened Wrappers

  /** The fixed half-width of the zero-error band of `update`. */
  const Deadband: real := 0.5

  datatype PidState = PidState(
    kP: real, kI: real, kD: real,
    dt: real,         // configured interval in seconds; 0 means "measure it"
    iMax: real,       // limit on |sumError|; 0 means "no limit"
    sumError: real,
    lastError: real,
    lastTime: real,   // clock reading of the previous update; 0 means "never"
    target: real)

  datatype UpdateResult = UpdateResult(state: PidState, output: real)

  function Abs(x: real): real { if x < 0.0 then -x else x }

  /** JavaScript truthiness of an optional number: present and nonzero. */
  predicate Truthy(x: Option<real>) { x.Some? && x.value != 0.0 }

  /** `x || 0` on an optional number. */
  function OrZero(x: Option<real>): (r: real)
    ensures x.Some? ==> r == x.value
    ensures x.None? ==> r == 0.0
  {
    if x.Some? then x.value else 0.0
  }

  /** The anti-windup invariant: with a positive limit, the integral stays within it. */
  predicate IntegralWithinLimit(s: PidState) {
    s.iMax > 0.0 ==> Abs(s.sumError) <= s.iMax
  }

  /** The constructor: `k_p` defaults to 1 only when it is not a number, the others to 0. */
  function Create(kP: Option<real>, kI: Option<real>, kD: Option<real>,
                  dt: Option<real>, iMax: Option<real>): (s: PidState)
    ensures s.kP == (if kP.Some? then kP.value else 1.0)
    ensures s.kI == OrZero(kI) && s.kD == OrZero(kD)
    ensures s.dt == OrZero(dt) && s.iMax == OrZero(iMax)
    ensures s.sumError == 0.0 && s.lastError == 0.0 && s.lastTime == 0.0 && s.target == 0.0
    ensures IntegralWithinLimit(s)
  {
    PidState(if kP.Some? then kP.value else 1.0, OrZero(kI), OrZero(kD),
             OrZero(dt), OrZero(iMax), 0.0, 0.0, 0.0, 0.0)
  }

  /** The interval `update` measures: the configured one, else the clock difference in seconds. */
  function MeasuredDt(cfgDt: real, lastTime: real, now: real): (d: real)
    ensures cfgDt != 0.0 ==> d == cfgDt
    ensures cfgDt == 0.0 && lastTime == 0.0 ==> d == 0.0
    ensures cfgDt == 0.0 && lastTime != 0.0 ==> d * 1000.0 == now - lastTime
  {
    if cfgDt != 0.0 then cfgDt
    else if lastTime == 0.0 then 0.0
    else (now - lastTime) / 1000.0
  }

  /** The interval `update` divides by: a zero measurement is replaced by 1. */
  function EffectiveDt(cfgDt: real, lastTime: real, now: real): (dt: real)
    ensures dt != 0.0
    ensures cfgDt != 0.0 ==> dt == cfgDt
    ensures cfgDt == 0.0 && lastTime == 0.0 ==> dt == 1.0
    ensures cfgDt == 0.0 && lastTime != 0.0 ==>
      dt == (if now == lastTime then 1.0 else (now - lastTime) / 1000.0)
    ensures MeasuredDt(cfgDt, lastTime, now) != 0.0 ==> dt == MeasuredDt(cfgDt, lastTime, now)
  {
    var d := MeasuredDt(cfgDt, lastTime, now);
    if d == 0.0 then 1.0 else d
  }

  /** The clock reading kept for the next call: only a measured interval reads the clock. */
  function NextLastTime(cfgDt: real, lastTime: real, now: real): (t: real)
    ensures cfgDt != 0.0 ==> t == lastTime
    ensures cfgDt == 0.0 ==> t == now
  {
    if cfgDt != 0.0 then lastTime else now
  }

  /** The error after the deadband: strictly inside (-0.5, 0.5) it becomes 0, else it is kept. */
  function ApplyDeadband(e: real): (r: real)
    ensures -Deadband < e < Deadband ==> r == 0.0
    ensures (e <= -Deadband || Deadband <= e) ==> r == e
  {
    var e1 := if e < 0.0 && e > -Deadband then 0.0 else e;
    if e1 > 0.0 && e1 < Deadband then 0.0 else e1
  }

  /** Anti-windup: a sum beyond a positive limit is set to the limit with the sum's sign. */
  function ClampIntegral(sum: real, iMax: real): (r: real)
    ensures iMax > 0.0 ==> Abs(r) <= iMax
    ensures (iMax <= 0.0 || Abs(sum) <= iMax) ==> r == sum
    ensures iMax > 0.0 && sum > iMax ==> r == iMax
    ensures iMax > 0.0 && sum < -iMax ==> r == -iMax
  {
    if iMax > 0.0 && Abs(sum) > iMax then
      var sumSign := if sum > 0.0 then 1.0 else -1.0;
      sumSign * iMax
    else sum
  }

  /** The gains passed to `update` are used only when all three are truthy. */
  predicate UseOverride(kp: Option<real>, ki: Option<real>, kd: Option<real>) {
    Truthy(kp) && Truthy(ki) && Truthy(kd)
  }

  /** The P+I+D sum, with the passed gains when all three are truthy, else the stored ones. */
  function Output(kP: real, kI: real, kD: real, kp: Option<real>, ki: Option<real>, kd: Option<real>,
                  error: real, sumError: real, dError: real): (o: real)
    ensures UseOverride(kp, ki, kd) ==> o == kp.value * error + ki.value * sumError + kd.value * dError
    ensures !UseOverride(kp, ki, kd) ==> o == kP * error + kI * sumError + kD * dError
    ensures error == 0.0 && sumError == 0.0 && dError == 0.0 ==> o == 0.0
  {
    if UseOverride(kp, ki, kd) then kp.value * error + ki.value * sumError + kd.value * dError
    else kP * error + kI * sumError + kD * dError
  }

  /** One call of `update(currentValue, kp, ki, kd)` at clock reading `now`. */
  function Step(s: PidState, currentValue: real, now: real,
                kp: Option<real>, ki: Option<real>, kd: Option<real>): (r: UpdateResult)
    ensures r.state.kP == s.kP && r.state.kI == s.kI && r.state.kD == s.kD
    ensures r.state.dt == s.dt && r.state.iMax == s.iMax && r.state.target == s.target
    ensures s.iMax > 0.0 ==> Abs(r.state.sumError) <= s.iMax
    ensures r.state.lastError == ApplyDeadband(s.target - currentValue)
    ensures r.state.lastTime == (if s.dt != 0.0 then s.lastTime else now)
    ensures r.state.sumError
         == ClampIntegral(s.sumError + r.state.lastError * EffectiveDt(s.dt, s.lastTime, now), s.iMax)
  {
    var dt := EffectiveDt(s.dt, s.lastTime, now);
    var error := ApplyDeadband(s.target - currentValue);
    var sumError := ClampIntegral(s.sumError + error * dt, s.iMax);
    var dError := (error - s.lastError) / dt;
    var output := Output(s.kP, s.kI, s.kD, kp, ki, kd, error, sumError, dError);
    UpdateResult(s.(sumError := sumError, lastError := error,
                    lastTime := NextLastTime(s.dt, s.lastTime, now)), output)
  }

  /** `Step` assembled from its intermediate values, for the proof of `Controller.Update`; it only reassembles the body. */
  lemma StepFromParts(s: PidState, v: real, now: real,
                      kp: Option<real>, ki: Option<real>, kd: Option<real>,
                      dt: real, error: real, sum: real, dError: real, lastTime: real)
    requires dt == EffectiveDt(s.dt, s.lastTime, now)
    requires lastTime == NextLastTime(s.dt, s.lastTime, now)
    requires error == ApplyDeadband(s.target - v)
    requires sum == ClampIntegral(s.sumError + error * dt, s.iMax)
    requires dError == (error - s.lastError) / dt
    ensures Step(s, v, now, kp, ki, kd) ==
      UpdateResult(s.(sumError := sum, lastError := error, lastTime := lastTime),
                   Output(s.kP, s.kI, s.kD, kp, ki, kd, error, sum, dError))
  {
  }

  /** `reset`: the integral, the last error and the clock reading go back to 0. */
  function ResetState(s: PidState): (r: PidState)
    ensures r.sumError == 0.0 && r.lastError == 0.0 && r.lastTime == 0.0
    ensures r.kP == s.kP && r.kI == s.kI && r.kD == s.kD
    ensures r.dt == s.dt && r.iMax == s.iMax && r.target == s.target
  {
    s.(sumError := 0.0, lastError := 0.0, lastTime := 0.0)
  }

  /** Every update keeps the anti-windup invariant, whatever the error and the interval. */
  lemma StepKeepsIntegralLimit(s: PidState, v: real, now: real,
                               kp: Option<real>, ki: Option<real>, kd: Option<real>)
    requires IntegralWithinLimit(s)
    ensures IntegralWithinLimit(Step(s, v, now, kp, ki, kd).state)
  {
  }

  /**
   * An error strictly inside the deadband leaves the integral where it was,
   * records 0 as the last error and contributes no proportional term.
   */
  lemma DeadbandFreezesIntegral(s: PidState, v: real, now: real)
    requires IntegralWithinLimit(s)
    requires -Deadband < s.target - v < Deadband
    ensures var r := Step(s, v, now, None, None, None);
      && r.state.sumError == s.sumError
      && r.state.lastError == 0.0
      && r.output == s.kI * s.sumError + s.kD * (0.0 - s.lastError) / EffectiveDt(s.dt, s.lastTime, now)
  {
  }

  /** The deadband is open: an error of exactly 0.5 or -0.5 is kept. */
  lemma DeadbandEdgesKept()
    ensures ApplyDeadband(Deadband) == Deadband && ApplyDeadband(-Deadband) == -Deadband
  {
  }

  /** The first update after construction or `reset` divides by 1 and starts timing from `now`. */
  lemma FirstUpdateUsesUnitDt(s: PidState, now: real)
    requires s.dt == 0.0 && s.lastTime == 0.0
    ensures EffectiveDt(s.dt, s.lastTime, now) == 1.0
    ensures NextLastTime(s.dt, s.lastTime, now) == now
  {
  }

  /** A configured interval is used as it is and the clock is not read. */
  lemma ConfiguredDtUsed(s: PidState, v: real, now: real,
                         kp: Option<real>, ki: Option<real>, kd: Option<real>)
    requires s.dt != 0.0
    ensures EffectiveDt(s.dt, s.lastTime, now) == s.dt
    ensures Step(s, v, now, kp, ki, kd).state.lastTime == s.lastTime
  {
  }

  /**
   * The output law: the P, I and D terms with the stored gains, computed from the
   * post-deadband error, the clamped integral and the difference of errors over dt.
   */
  lemma StoredGainsLaw(s: PidState, v: real, now: real,
                       kp: Option<real>, ki: Option<real>, kd: Option<real>)
    requires !UseOverride(kp, ki, kd)
    ensures var dt := EffectiveDt(s.dt, s.lastTime, now);
      var e := ApplyDeadband(s.target - v);
      var r := Step(s, v, now, kp, ki, kd);
      r.output == s.kP * e + s.kI * r.state.sumError + s.kD * (e - s.lastError) / dt
  {
  }

  /**
   * Passing only a `kp` override (the flight loop passes the throttle and nothing
   * else) is the same as passing no override: the stored gains are used.
   */
  lemma PartialOverrideIgnored(s: PidState, v: real, now: real, kp: Option<real>)
    ensures Step(s, v, now, kp, None, None) == Step(s, v, now, None, None, None)
  {
  }

  /** After `reset`, an update on a measured clock behaves like the very first one. */
  lemma ResetRestartsTiming(s: PidState, v: real, now: real)
    requires s.dt == 0.0
    ensures var r := Step(ResetState(s), v, now, None, None, None);
      && r.state.lastTime == now
      && r.state.sumError == ClampIntegral(ApplyDeadband(s.target - v), s.iMax)
  {
  }

  /** A proportional-only controller with target 10 and a measurement of 0 outputs 10. */
  lemma ProportionalExample()
    ensures Step(Create(Some(1.0), Some(0.0), Some(0.0), Some(1.0), None).(target := 10.0),
                 0.0, 0.0, None, None, None).output == 10.0
  {
  }

  class Controller {
    var kP: real
    var kI: real
    var kD: real
    var dt: real
    var iMax: real
    var sumError: real
    var lastError: real
    var lastTime: real
    var target: real

    function State(): PidState
      reads this
    {
      PidState(kP, kI, kD, dt, iMax, sumError, lastError, lastTime, target)
    }

    ghost predicate Valid()
      reads this
    {
      IntegralWithinLimit(State())
    }

    constructor (kP: Option<real>, kI: Option<real>, kD: Option<real>,
                 dt: Option<real>, iMax: Option<real>)
      ensures Valid() && State() == Create(kP, kI, kD, dt, iMax)
    {
      this.kP := if kP.Some? then kP.value else 1.0;
      this.kI := OrZero(kI);
      this.kD := OrZero(kD);
      this.dt := OrZero(dt);
      this.iMax := OrZero(iMax);
      sumError := 0.0;
      lastError := 0.0;
      lastTime := 0.0;
      target := 0.0;
    }

    method SetTarget(t: real)
      requires Valid()
      modifies this
      ensures Valid() && State() == old(State()).(target := t)
    {
      target := t;
    }

    method Update(currentValue: real, now: real,
                  kp: Option<real>, ki: Option<real>, kd: Option<real>) returns (output: real)
      requires Valid()
      modifies this
      ensures State() == Step(old(State()), currentValue, now, kp, ki, kd).state
      ensures output == Step(old(State()), currentValue, now, kp, ki, kd).output
      ensures Valid()
    {
      ghost var s := State();
      // Calculate dt
      var dtNow := dt;
      if dtNow == 0.0 {
        var currentTime := now;
        if lastTime == 0.0 {
          dtNow := 0.0;
        } else {
          dtNow := (currentTime - lastTime) / 1000.0;
        }
        lastTime := currentTime;
      }
      if dtNow == 0.0 {
        dtNow := 1.0;
      }

      var error := target - currentValue;
      // Deadband
      if error < 0.0 && error > -Deadband {
        error := 0.0;
      }
      if error > 0.0 && error < Deadband {
        error := 0.0;
      }

      var sum := sumError + error * dtNow;
      if iMax > 0.0 && Abs(sum) > iMax {
        var sumSign := if sum > 0.0 then 1.0 else -1.0;
        sum := sumSign * iMax;
      }
      sumError := sum;

      var dError := (error - lastError) / dtNow;
      lastError := error;

      output := Output(kP, kI, kD, kp, ki, kd, error, sumError, dError);
      StepFromParts(s, currentValue, now, kp, ki, kd, dtNow, error, sum, dError, lastTime);
    }

    method UpdateKp(k: real)
      requires Valid()
      modifies this
      ensures Valid() && State() == old(State()).(kP := k)
    {
      kP := k;
    }

    method UpdateKi(k: real)
      requires Valid()
      modifies this
      ensures Valid() && State() == old(State()).(kI := k)
    {
      kI := k;
    }

    method UpdateKd(k: real)
      requires Valid()
      modifies this
      ensures Valid() && State() == old(State()).(kD := k)
    {
      kD := k;
    }

    method Reset()
      requires Valid()
      modifies this
      ensures Valid() && State() == ResetState(old(State()))
    {
      sumError := 0.0;
      lastError := 0.0;
      lastTime := 0.0;
    }
  }
}
