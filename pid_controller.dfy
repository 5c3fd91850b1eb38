/** A PID controller with output clamping and anti-windup (control/pid_controller.py).
    Time is a parameter: every call that samples the clock in the source takes `now`. */
module PidControl {

  /** Time step used when the clock has not advanced since the previous call. */
  const MinDt: real := 0.001

  datatype Gains = Gains(kp: real, ki: real, kd: real)

  /** The controller's gains, output limits and the state it carries between calls. */
  datatype PidState = PidState(gains: Gains, outputMin: real, outputMax: real,
                               integral: real, lastError: real, lastTime: real)

  /** What one call of `update` produces: the state afterwards and the returned command. */
  datatype Update = Update(next: PidState, output: real)

  /** One sample fed to the controller: the error and the clock reading at the call. */
  datatype Sample = Sample(error: real, now: real)

  /** `np.clip(x, lo, hi)`, which is `min(max(x, lo), hi)`: with `lo > hi` every value becomes `hi`. */
  function Clip(x: real, lo: real, hi: real): (r: real)
    ensures lo <= hi ==> lo <= r <= hi
    ensures lo <= x <= hi ==> r == x
    ensures x > hi ==> r == hi
    ensures lo <= hi && x < lo ==> r == lo
    ensures lo > hi ==> r == hi
  {
    var atLeastLo := if x < lo then lo else x;
    if atLeastLo > hi then hi else atLeastLo
  }

  /** The elapsed time the controller divides by: always strictly positive. */
  function StepDt(lastTime: real, now: real): (dt: real)
    ensures dt > 0.0
    ensures now > lastTime ==> dt == now - lastTime
    ensures now <= lastTime ==> dt == MinDt
  {
    var elapsed := now - lastTime;
    if elapsed <= 0.0 then MinDt else elapsed
  }

  /** The sum of the three terms before clamping, given the integral after the tentative add. */
  function RawOutput(g: Gains, error: real, integral: real, lastError: real, dt: real): (raw: real)
    requires dt > 0.0
  {
    g.kp * error + g.ki * integral + g.kd * ((error - lastError) / dt)
  }

  /** The three terms `update` computes one by one add up to the raw output. */
  lemma RawOutputTerms(g: Gains, error: real, integral: real, lastError: real, dt: real,
                       pTerm: real, iTerm: real, dTerm: real)
    requires dt > 0.0
    requires pTerm == g.kp * error && iTerm == g.ki * integral
    requires dTerm == g.kd * ((error - lastError) / dt)
    ensures pTerm + iTerm + dTerm == RawOutput(g, error, integral, lastError, dt)
  {
  }

  /** The state a new controller starts in, and the state `reset` returns to. */
  function Initial(g: Gains, outputMin: real, outputMax: real, now: real): (s: PidState)
    ensures s.integral == 0.0 && s.lastError == 0.0 && s.lastTime == now
    ensures s.gains == g && s.outputMin == outputMin && s.outputMax == outputMax
  {
    PidState(g, outputMin, outputMax, 0.0, 0.0, now)
  }

  /** One call of `update(error)` at clock reading `now`. */
  function UpdateStep(s: PidState, error: real, now: real): (u: Update)
    ensures u.next.gains == s.gains
    ensures u.next.outputMin == s.outputMin && u.next.outputMax == s.outputMax
    ensures u.next.lastError == error && u.next.lastTime == now
    ensures s.outputMin <= s.outputMax ==> s.outputMin <= u.output <= s.outputMax
  {
    var dt := StepDt(s.lastTime, now);
    var integral := s.integral + error * dt;
    var raw := RawOutput(s.gains, error, integral, s.lastError, dt);
    var output := Clip(raw, s.outputMin, s.outputMax);
    var kept := if output != raw then s.integral else integral;
    Update(s.(integral := kept, lastError := error, lastTime := now), output)
  }

  /** Unsaturated, the command is the raw PID sum and the integration stands; saturated, the
      command sits on a limit and the integral is exactly what it was before the call. */
  lemma StepAntiWindup(s: PidState, error: real, now: real)
    ensures var dt := StepDt(s.lastTime, now);
            var raw := RawOutput(s.gains, error, s.integral + error * dt, s.lastError, dt);
            var u := UpdateStep(s, error, now);
            (s.outputMin <= raw <= s.outputMax ==> u.output == raw) &&
            (u.output == raw ==> u.next.integral == s.integral + error * dt) &&
            (u.output != raw ==> u.next.integral == s.integral &&
                                 (u.output == s.outputMin || u.output == s.outputMax))
  {
  }

  /** True when clamping changes the command of this call, so its integration is undone. */
  predicate Saturates(s: PidState, x: Sample)
  {
    var dt := StepDt(s.lastTime, x.now);
    UpdateStep(s, x.error, x.now).output
      != RawOutput(s.gains, x.error, s.integral + x.error * dt, s.lastError, dt)
  }

  /** The commands returned by successive calls of `update` on the samples, in order. */
  function Outputs(s: PidState, xs: seq<Sample>): (out: seq<real>)
    ensures |out| == |xs|
    decreases |xs|
  {
    if xs == [] then []
    else
      var u := UpdateStep(s, xs[0].error, xs[0].now);
      [u.output] + Outputs(u.next, xs[1..])
  }

  /** The controller state after successive calls of `update` on the samples. */
  function Final(s: PidState, xs: seq<Sample>): (last: PidState)
    ensures last.gains == s.gains
    ensures last.outputMin == s.outputMin && last.outputMax == s.outputMax
    decreases |xs|
  {
    if xs == [] then s else Final(UpdateStep(s, xs[0].error, xs[0].now).next, xs[1..])
  }

  /** One more sample extends the outputs by the command of one more `update` from the state the
      run so far left behind. */
  lemma {:induction false} OutputsAppend(s: PidState, xs: seq<Sample>, x: Sample)
    ensures Outputs(s, xs + [x]) == Outputs(s, xs) + [UpdateStep(Final(s, xs), x.error, x.now).output]
    ensures Final(s, xs + [x]) == UpdateStep(Final(s, xs), x.error, x.now).next
    decreases |xs|
  {
    if xs != [] {
      var u := UpdateStep(s, xs[0].error, xs[0].now);
      assert (xs + [x])[1..] == xs[1..] + [x];
      OutputsAppend(u.next, xs[1..], x);
    }
  }

  /** Every call in the run saturates. */
  predicate AllSaturate(s: PidState, xs: seq<Sample>)
    decreases |xs|
  {
    xs == [] || (Saturates(s, xs[0]) && AllSaturate(UpdateStep(s, xs[0].error, xs[0].now).next, xs[1..]))
  }

  /** With consistent limits, every command of every run lies within them. */
  lemma {:induction false} RunOutputsBounded(s: PidState, xs: seq<Sample>)
    requires s.outputMin <= s.outputMax
    ensures forall i :: 0 <= i < |xs| ==> s.outputMin <= Outputs(s, xs)[i] <= s.outputMax
    decreases |xs|
  {
    if xs != [] {
      var u := UpdateStep(s, xs[0].error, xs[0].now);
      RunOutputsBounded(u.next, xs[1..]);
      forall i | 0 <= i < |xs|
        ensures s.outputMin <= Outputs(s, xs)[i] <= s.outputMax
      {
        if i > 0 {
          assert Outputs(s, xs)[i] == Outputs(u.next, xs[1..])[i - 1];
        }
      }
    }
  }

  /** The proportional term alone, clamped: what a controller with `ki == 0` and `kd == 0` returns. */
  function ProportionalCommand(kp: real, lo: real, hi: real, error: real): (command: real)
  {
    Clip(kp * error, lo, hi)
  }

  /** One call with `ki == 0` and `kd == 0`: the command is the clamped proportional term. */
  lemma ProportionalOnlyStep(s: PidState, error: real, now: real)
    requires s.gains.ki == 0.0 && s.gains.kd == 0.0
    ensures UpdateStep(s, error, now).output == ProportionalCommand(s.gains.kp, s.outputMin, s.outputMax, error)
  {
    var dt := StepDt(s.lastTime, now);
    assert RawOutput(s.gains, error, s.integral + error * dt, s.lastError, dt)
        == s.gains.kp * error;
  }

  /** With `ki == 0` and `kd == 0` the controller is memoryless: each command is the clamped
      proportional term of its own error, whatever came before. */
  lemma {:induction false} ProportionalOnlyRun(s: PidState, xs: seq<Sample>, i: nat)
    requires s.gains.ki == 0.0 && s.gains.kd == 0.0
    requires i < |xs|
    ensures Outputs(s, xs)[i] == ProportionalCommand(s.gains.kp, s.outputMin, s.outputMax, xs[i].error)
    decreases i
  {
    var u := UpdateStep(s, xs[0].error, xs[0].now);
    var rest := Outputs(u.next, xs[1..]);
    assert Outputs(s, xs) == [u.output] + rest;
    if i == 0 {
      ProportionalOnlyStep(s, xs[0].error, xs[0].now);
    } else {
      ProportionalOnlyRun(u.next, xs[1..], i - 1);
      assert xs[1..][i - 1] == xs[i];
    }
  }

  /** Anti-windup: however long the output stays saturated, the integral does not move. */
  lemma {:induction false} SaturatedRunKeepsIntegral(s: PidState, xs: seq<Sample>)
    requires AllSaturate(s, xs)
    ensures Final(s, xs).integral == s.integral
    ensures Final(s, xs).gains == s.gains
    decreases |xs|
  {
    if xs != [] {
      SaturatedRunKeepsIntegral(UpdateStep(s, xs[0].error, xs[0].now).next, xs[1..]);
    }
  }

  /** `reset` followed by `update` behaves exactly like the first `update` of a new controller
      with the same gains and limits, whatever state the controller was in before. */
  lemma ResetThenUpdateIsFresh(s: PidState, resetAt: real, error: real, now: real)
    ensures var restarted := Initial(s.gains, s.outputMin, s.outputMax, resetAt);
            UpdateStep(s.(integral := 0.0, lastError := 0.0, lastTime := resetAt), error, now)
              == UpdateStep(restarted, error, now)
  {
  }

  /** The first update of a new controller: the integral is `error * dt` and the derivative
      is taken against a previous error of zero. */
  lemma FirstUpdate(g: Gains, lo: real, hi: real, start: real, error: real, now: real)
    ensures var dt := StepDt(start, now);
            var raw := g.kp * error + g.ki * (error * dt) + g.kd * (error / dt);
            UpdateStep(Initial(g, lo, hi, start), error, now).output == Clip(raw, lo, hi)
  {
    var dt := StepDt(start, now);
    var s := Initial(g, lo, hi, start);
    assert s.integral + error * dt == error * dt;
    assert (error - s.lastError) / dt == error / dt;
    RawOutputTerms(g, error, error * dt, s.lastError, dt, g.kp * error, g.ki * (error * dt), g.kd * (error / dt));
  }

  /** The controller object. Limits are fixed at construction; the source never reassigns them. */
  class PIDController {
    var kp: real
    var ki: real
    var kd: real
    const outputMin: real
    const outputMax: real
    var integral: real
    var lastError: real
    var lastTime: real

    /** The abstract value of the object. */
    function State(): (s: PidState)
      reads this
    {
      PidState(Gains(kp, ki, kd), outputMin, outputMax, integral, lastError, lastTime)
    }

    constructor (kp: real, ki: real, kd: real, outputMin: real, outputMax: real, now: real)
      ensures State() == Initial(Gains(kp, ki, kd), outputMin, outputMax, now)
    {
      this.kp, this.ki, this.kd := kp, ki, kd;
      this.outputMin, this.outputMax := outputMin, outputMax;
      integral := 0.0;
      lastError := 0.0;
      lastTime := now;
    }

    /** Integrates tentatively, clamps, and takes the integration back when clamping bit. */
    method Update(error: real, now: real) returns (output: real)
      modifies this
      ensures State() == UpdateStep(old(State()), error, now).next
      ensures output == UpdateStep(old(State()), error, now).output
      ensures outputMin <= outputMax ==> outputMin <= output <= outputMax
      ensures lastError == error && lastTime == now
    {
      ghost var before := State();
      var dt := now - lastTime;
      if dt <= 0.0 {
        dt := MinDt;
      }
      assert dt == StepDt(before.lastTime, now);
      var pTerm := kp * error;
      integral := integral + error * dt;
      var iTerm := ki * integral;
      var derivative := (error - lastError) / dt;
      var dTerm := kd * derivative;
      assert before.gains == Gains(kp, ki, kd) && before.lastError == lastError;
      assert integral == before.integral + error * dt;
      RawOutputTerms(before.gains, error, integral, lastError, dt, pTerm, iTerm, dTerm);
      output := Clip(pTerm + iTerm + dTerm, outputMin, outputMax);
      if output != pTerm + iTerm + dTerm {
        integral := integral - error * dt;
        assert integral == before.integral;
      }
      lastError := error;
      lastTime := now;
      ghost var u := UpdateStep(before, error, now);
      assert output == u.output;
      assert State() == u.next;
    }

    /** Returns to the constructor's state; gains and limits stay. */
    method Reset(now: real)
      modifies this
      ensures State() == Initial(old(State()).gains, outputMin, outputMax, now)
    {
      integral := 0.0;
      lastError := 0.0;
      lastTime := now;
    }

    /** Replaces the three gains and nothing else. */
    method SetGains(kp: real, ki: real, kd: real)
      modifies this
      ensures State() == old(State()).(gains := Gains(kp, ki, kd))
    {
      this.kp, this.ki, this.kd := kp, ki, kd;
    }
  }
}
