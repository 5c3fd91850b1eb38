/** The feedback loop that turns camera images into laser commands (control/feedback_loop.py).
    The worker thread becomes the `running` / `stopRequested` flags and a sequence of `Step`
    calls; the camera, the processing pipeline and the board become inputs of `Step`, and the
    clock readings become its `now` and `elapsed` parameters. */
module Feedback {
  import opened PidControl

  /** Capacity of the error and output histories. */
  const MaxHistory: nat := 1000

  datatype Option<T> = None | Some(value: T)

  datatype ControlSetpoint = ControlSetpoint(targetValue: real, tolerance: real, parameterName: string)

  /** What the processing pipeline made of an image: its named features, or an exception. */
  datatype Processed = Features(values: map<string, real>) | ProcessorFault

  /** What the camera returned for one cycle: no image, or an image and what the pipeline made of it. */
  datatype Capture = NoImage | Image(processed: Processed)

  /** How one pass of the loop body ended. `BoardFaulted` and `Commanded` both carry the error
      and the command the board was given; the board raised in the first. */
  datatype Cycle =
    | SkippedNoImage
    | ProcessorFaulted
    | SkippedNoSetpoint
    | BoardFaulted(error: real, command: real)
    | Commanded(error: real, command: real)
  {
    /** The controller was called (and the board was then given its command). */
    predicate ReachedController() { BoardFaulted? || Commanded? }

    /** The pass ended in `continue`, which also skips the pacing wait at the bottom of the loop. */
    predicate Continued() { SkippedNoImage? || SkippedNoSetpoint? }

    /** The value passed to the board, if the board was called. */
    function BoardCall(): Option<real>
    {
      if ReachedController() then Some(command) else None
    }
  }

  /** One cycle's worth of outside world: camera and pipeline, board, and the two clock readings. */
  datatype CycleInput = CycleInput(capture: Capture, boardAccepts: bool, now: real, elapsed: real)

  /** `get_statistics`. The source reports the square root of `meanSquareError` as `rms_error`. */
  datatype Statistics = Statistics(loopCount: nat, lastError: real, lastOutput: real,
                                   meanSquareError: real, meanOutput: real)

  /** `features.get(name, 0.0)`. */
  function Measured(features: map<string, real>, name: string): (v: real)
    ensures name in features ==> v == features[name]
    ensures name !in features ==> v == 0.0
  {
    if name in features then features[name] else 0.0
  }

  /** The error the loop feeds the controller: target minus measurement. */
  function ErrorFor(sp: ControlSetpoint, features: map<string, real>): (e: real)
    ensures e + Measured(features, sp.parameterName) == sp.targetValue
  {
    sp.targetValue - Measured(features, sp.parameterName)
  }

  /** How a cycle ends, given what the collaborators do and the controller state it starts from. */
  function CycleOutcome(capture: Capture, setpoint: Option<ControlSetpoint>, boardAccepts: bool,
                        pid: PidState, now: real): (c: Cycle)
    ensures c.SkippedNoImage? <==> capture.NoImage?
    ensures c.ProcessorFaulted? <==> capture == Image(ProcessorFault)
    ensures c.SkippedNoSetpoint? <==> capture.Image? && capture.processed.Features? && setpoint.None?
    ensures c.ReachedController() ==>
              capture.Image? && capture.processed.Features? && setpoint.Some? &&
              c.error == ErrorFor(setpoint.value, capture.processed.values) &&
              c.command == UpdateStep(pid, c.error, now).output
    ensures c.Commanded? <==> c.ReachedController() && boardAccepts
  {
    match capture
    case NoImage => SkippedNoImage
    case Image(ProcessorFault) => ProcessorFaulted
    case Image(Features(values)) =>
      if setpoint.None? then SkippedNoSetpoint
      else
        var error := ErrorFor(setpoint.value, values);
        var command := UpdateStep(pid, error, now).output;
        if boardAccepts then Commanded(error, command) else BoardFaulted(error, command)
  }

  /** One more pass adds its error and command to the completed ones exactly when it completed. */
  lemma AppendCycle(cycles: seq<Cycle>, c: Cycle)
    ensures CompletedErrors(cycles + [c]) == CompletedErrors(cycles) + (if c.Commanded? then [c.error] else [])
    ensures CompletedOutputs(cycles + [c]) == CompletedOutputs(cycles) + (if c.Commanded? then [c.command] else [])
  {
    assert (cycles + [c])[..|cycles|] == cycles;
  }

  /** One more pass becomes the last pass that reached the controller exactly when it reached it. */
  lemma LastReachedAppend(cycles: seq<Cycle>, c: Cycle)
    ensures LastReached(cycles + [c]) == if c.ReachedController() then Some(c) else LastReached(cycles)
  {
    assert (cycles + [c])[..|cycles|] == cycles;
  }

  /** The cycle is the one its input calls for: skipped for want of an image exactly when
      there is none, and completed exactly when the input lets it complete. */
  predicate Matches(x: CycleInput, c: Cycle, setpoint: Option<ControlSetpoint>)
  {
    (c.SkippedNoImage? <==> x.capture.NoImage?) && (c.Commanded? <==> Completes(x, setpoint))
  }

  /** With consistent limits the board is never asked for a command outside them. */
  lemma BoardCommandWithinLimits(capture: Capture, setpoint: Option<ControlSetpoint>,
                                 boardAccepts: bool, pid: PidState, now: real)
    requires pid.outputMin <= pid.outputMax
    ensures var call := CycleOutcome(capture, setpoint, boardAccepts, pid, now).BoardCall();
            call.Some? ==> pid.outputMin <= call.value <= pid.outputMax
  {
  }

  /** The controller state after a pass: one `update` further exactly when the pass reached it. */
  function AfterCycle(c: Cycle, pid: PidState, now: real): (next: PidState)
    ensures next.gains == pid.gains
    ensures next.outputMin == pid.outputMin && next.outputMax == pid.outputMax
  {
    if c.ReachedController() then UpdateStep(pid, c.error, now).next else pid
  }

  /** The passes of a run, in order, and the controller state after the last of them. */
  datatype Run = Run(cycles: seq<Cycle>, pid: PidState)

  /** The worker's loop over `inputs`: each pass ends as `CycleOutcome` says, starting from the
      controller state the passes before it left behind. */
  function RunLoop(inputs: seq<CycleInput>, setpoint: Option<ControlSetpoint>, pid: PidState): (r: Run)
    ensures |r.cycles| == |inputs|
    ensures forall i :: 0 <= i < |inputs| ==> Matches(inputs[i], r.cycles[i], setpoint)
    ensures r.pid.gains == pid.gains
    ensures r.pid.outputMin == pid.outputMin && r.pid.outputMax == pid.outputMax
  {
    if inputs == [] then Run([], pid)
    else
      var before := RunLoop(inputs[..|inputs| - 1], setpoint, pid);
      var x := inputs[|inputs| - 1];
      var c := CycleOutcome(x.capture, setpoint, x.boardAccepts, before.pid, x.now);
      Run(before.cycles + [c], AfterCycle(c, before.pid, x.now))
  }

  /** A run one input longer is the shorter run followed by one more pass. */
  lemma RunLoopStep(inputs: seq<CycleInput>, i: nat, setpoint: Option<ControlSetpoint>, pid: PidState)
    requires i < |inputs|
    ensures var before := RunLoop(inputs[..i], setpoint, pid);
            var x := inputs[i];
            var c := CycleOutcome(x.capture, setpoint, x.boardAccepts, before.pid, x.now);
            RunLoop(inputs[..i + 1], setpoint, pid) == Run(before.cycles + [c], AfterCycle(c, before.pid, x.now))
  {
    assert inputs[..i + 1][..i] == inputs[..i];
  }

  /** Pass `i` of a run starts from the controller state left by the `i` passes before it. */
  lemma {:induction false} RunLoopPass(inputs: seq<CycleInput>, setpoint: Option<ControlSetpoint>,
                                       pid: PidState, i: nat)
    requires i < |inputs|
    ensures RunLoop(inputs, setpoint, pid).cycles[i]
            == CycleOutcome(inputs[i].capture, setpoint, inputs[i].boardAccepts,
                            RunLoop(inputs[..i], setpoint, pid).pid, inputs[i].now)
    decreases |inputs|
  {
    var init := inputs[..|inputs| - 1];
    if i < |inputs| - 1 {
      RunLoopPass(init, setpoint, pid, i);
      assert init[..i] == inputs[..i];
    }
  }

  /** The pass reaches the controller: there is an image, the pipeline gave features, and
      there is a setpoint. */
  predicate Reaches(x: CycleInput, setpoint: Option<ControlSetpoint>)
  {
    x.capture.Image? && x.capture.processed.Features? && setpoint.Some?
  }

  /** The samples a run feeds the controller: the error and clock reading of every pass that
      reaches it. They depend on the inputs alone. */
  function ControllerSamples(inputs: seq<CycleInput>, setpoint: Option<ControlSetpoint>): (xs: seq<Sample>)
  {
    if inputs == [] then []
    else
      var x := inputs[|inputs| - 1];
      ControllerSamples(inputs[..|inputs| - 1], setpoint)
        + (if Reaches(x, setpoint)
           then [Sample(ErrorFor(setpoint.value, x.capture.processed.values), x.now)]
           else [])
  }

  /** The commands of the passes that reached the controller, in order. */
  function ControllerCommands(cycles: seq<Cycle>): (cs: seq<real>)
  {
    if cycles == [] then []
    else
      var last := cycles[|cycles| - 1];
      ControllerCommands(cycles[..|cycles| - 1]) + (if last.ReachedController() then [last.command] else [])
  }

  /** The last pass that reached the controller, if any did. */
  function LastReached(cycles: seq<Cycle>): (r: Option<Cycle>)
    ensures r.Some? ==> r.value.ReachedController()
    ensures r.Some? ==>
              exists k :: 0 <= k < |cycles| && cycles[k] == r.value &&
                forall j :: k < j < |cycles| ==> !cycles[j].ReachedController()
    ensures r.None? <==> forall i :: 0 <= i < |cycles| ==> !cycles[i].ReachedController()
  {
    if cycles == [] then None
    else
      var last := cycles[|cycles| - 1];
      if last.ReachedController() then Some(last) else LastReached(cycles[..|cycles| - 1])
  }

  /** The waits of a run so far: none after a `continue`, the pacing wait after any other pass. */
  predicate WaitsFit(inputs: seq<CycleInput>, cycles: seq<Cycle>, waits: seq<real>, loopPeriod: real)
  {
    |waits| == |cycles| <= |inputs| &&
    forall k :: 0 <= k < |cycles| ==>
      waits[k] == if cycles[k].Continued() then 0.0 else PacingWait(loopPeriod, inputs[k].elapsed)
  }

  /** A pass whose wait is as the source computes it keeps the waits of the run as they should be. */
  lemma WaitsFitAppend(inputs: seq<CycleInput>, cycles: seq<Cycle>, waits: seq<real>, loopPeriod: real,
                       c: Cycle, w: real)
    requires WaitsFit(inputs, cycles, waits, loopPeriod) && |cycles| < |inputs|
    requires w == if c.Continued() then 0.0 else PacingWait(loopPeriod, inputs[|cycles|].elapsed)
    ensures WaitsFit(inputs, cycles + [c], waits + [w], loopPeriod)
  {
  }

  /** `last_error` and `last_control_output` after a run: those of the last pass that reached
      the controller, or what they were before the run when none did. */
  predicate LastFits(cycles: seq<Cycle>, lastError: real, lastOutput: real, lastError0: real, lastOutput0: real)
  {
    (LastReached(cycles).Some? ==>
       lastError == LastReached(cycles).value.error && lastOutput == LastReached(cycles).value.command) &&
    (LastReached(cycles).None? ==> lastError == lastError0 && lastOutput == lastOutput0)
  }

  /** A pass that sets the last values exactly when it reaches the controller keeps them those
      of the last pass that reached it. */
  lemma LastFitsAppend(cycles: seq<Cycle>, c: Cycle, lastError: real, lastOutput: real,
                       nextError: real, nextOutput: real, lastError0: real, lastOutput0: real)
    requires LastFits(cycles, lastError, lastOutput, lastError0, lastOutput0)
    requires c.ReachedController() ==> nextError == c.error && nextOutput == c.command
    requires !c.ReachedController() ==> nextError == lastError && nextOutput == lastOutput
    ensures LastFits(cycles + [c], nextError, nextOutput, lastError0, lastOutput0)
  {
    LastReachedAppend(cycles, c);
  }

  /** The full record after a run: what it held before, then the pairs of the completed passes. */
  predicate Recorded(cycles: seq<Cycle>, errors: seq<real>, outputs: seq<real>,
                     errors0: seq<real>, outputs0: seq<real>)
  {
    errors == errors0 + CompletedErrors(cycles) && outputs == outputs0 + CompletedOutputs(cycles)
  }

  /** A pass that records its pair exactly when it completes keeps the record that of the run. */
  lemma RecordedAppend(cycles: seq<Cycle>, c: Cycle, errors: seq<real>, outputs: seq<real>,
                       nextErrors: seq<real>, nextOutputs: seq<real>,
                       errors0: seq<real>, outputs0: seq<real>)
    requires Recorded(cycles, errors, outputs, errors0, outputs0)
    requires c.Commanded? ==> nextErrors == errors + [c.error] && nextOutputs == outputs + [c.command]
    requires !c.Commanded? ==> nextErrors == errors && nextOutputs == outputs
    ensures Recorded(cycles + [c], nextErrors, nextOutputs, errors0, outputs0)
  {
    AppendCycle(cycles, c);
    if c.Commanded? {
      assert errors0 + CompletedErrors(cycles) + [c.error] == errors0 + (CompletedErrors(cycles) + [c.error]);
      assert outputs0 + CompletedOutputs(cycles) + [c.command]
          == outputs0 + (CompletedOutputs(cycles) + [c.command]);
    }
  }

  /** Over a whole run the loop drives the controller exactly as successive calls of `update`
      on the samples of the passes that reach it: the commands are that run's outputs and the
      final controller state is that run's final state. */
  lemma {:induction false} LoopFollowsController(inputs: seq<CycleInput>, setpoint: Option<ControlSetpoint>,
                                                 pid: PidState)
    ensures RunLoop(inputs, setpoint, pid).pid == Final(pid, ControllerSamples(inputs, setpoint))
    ensures ControllerCommands(RunLoop(inputs, setpoint, pid).cycles)
            == Outputs(pid, ControllerSamples(inputs, setpoint))
  {
    if inputs != [] {
      var init := inputs[..|inputs| - 1];
      var x := inputs[|inputs| - 1];
      LoopFollowsController(init, setpoint, pid);
      var before := RunLoop(init, setpoint, pid);
      var c := CycleOutcome(x.capture, setpoint, x.boardAccepts, before.pid, x.now);
      var xs := ControllerSamples(init, setpoint);
      var cycles := before.cycles + [c];
      assert cycles[..|cycles| - 1] == before.cycles;
      assert init == inputs[..|inputs| - 1];
      if Reaches(x, setpoint) {
        var sample := Sample(ErrorFor(setpoint.value, x.capture.processed.values), x.now);
        assert c.ReachedController() && c.error == sample.error;
        assert ControllerSamples(inputs, setpoint) == xs + [sample];
        OutputsAppend(pid, xs, sample);
      } else {
        assert !c.ReachedController();
        assert ControllerSamples(inputs, setpoint) == xs + [];
        assert xs + [] == xs;
      }
    }
  }

  /** With `ki == 0` and `kd == 0`, every command the loop sends is the clamped proportional
      term of that pass's own error. */
  lemma ProportionalOnlyLoop(inputs: seq<CycleInput>, setpoint: Option<ControlSetpoint>, pid: PidState)
    requires pid.gains.ki == 0.0 && pid.gains.kd == 0.0
    ensures var xs := ControllerSamples(inputs, setpoint);
            var cs := ControllerCommands(RunLoop(inputs, setpoint, pid).cycles);
            |cs| == |xs| &&
            forall j :: 0 <= j < |xs| ==>
              cs[j] == ProportionalCommand(pid.gains.kp, pid.outputMin, pid.outputMax, xs[j].error)
  {
    var xs := ControllerSamples(inputs, setpoint);
    LoopFollowsController(inputs, setpoint, pid);
    forall j | 0 <= j < |xs|
      ensures Outputs(pid, xs)[j] == ProportionalCommand(pid.gains.kp, pid.outputMin, pid.outputMax, xs[j].error)
    {
      ProportionalOnlyRun(pid, xs, j);
    }
  }

  /** `max(0, loop_period - elapsed)`: how long the loop waits before the next cycle. */
  function PacingWait(loopPeriod: real, elapsed: real): (w: real)
    ensures w >= 0.0
    ensures w > 0.0 <==> elapsed < loopPeriod
    ensures w > 0.0 ==> elapsed + w == loopPeriod
    ensures 0.0 <= elapsed && 0.0 <= loopPeriod ==> w <= loopPeriod
  {
    if loopPeriod - elapsed > 0.0 then loopPeriod - elapsed else 0.0
  }

  /** The last `n` elements of `s` (all of them when there are at most `n`). */
  function Newest<T>(s: seq<T>, n: nat): (r: seq<T>)
    ensures |r| == if |s| <= n then |s| else n
    ensures forall i :: 0 <= i < |r| ==> r[i] == s[|s| - |r| + i]
  {
    if |s| <= n then s else s[|s| - n..]
  }

  /** Appending to a window of the newest `n` and evicting the oldest entry once it holds more
      than `n` keeps exactly the newest `n` of the longer sequence. */
  lemma NewestAppend<T>(s: seq<T>, x: T, n: nat)
    ensures var h := Newest(s, n) + [x];
            Newest(s + [x], n) == if |h| > n then h[1..] else h
  {
    var h := Newest(s, n) + [x];
    var r := Newest(s + [x], n);
    if |h| > n {
      assert |r| == |h[1..]|;
      forall i | 0 <= i < |r| ensures r[i] == h[1..][i] {
        if i < |r| - 1 {
          assert h[1..][i] == Newest(s, n)[i + 1];
        }
      }
    } else {
      assert |s| < n;
      assert r == s + [x];
    }
  }

  /** The errors of the completed cycles, in order. */
  function CompletedErrors(cycles: seq<Cycle>): (es: seq<real>)
  {
    if cycles == [] then []
    else
      var last := cycles[|cycles| - 1];
      CompletedErrors(cycles[..|cycles| - 1]) + (if last.Commanded? then [last.error] else [])
  }

  /** The commands of the completed cycles, in order. */
  function CompletedOutputs(cycles: seq<Cycle>): (os: seq<real>)
    ensures |os| == |CompletedErrors(cycles)|
  {
    if cycles == [] then []
    else
      var last := cycles[|cycles| - 1];
      CompletedOutputs(cycles[..|cycles| - 1]) + (if last.Commanded? then [last.command] else [])
  }

  /** The collaborators let this cycle run to completion: an image, features, a setpoint,
      and a board that takes the command. */
  predicate Completes(x: CycleInput, setpoint: Option<ControlSetpoint>)
  {
    x.capture.Image? && x.capture.processed.Features? && setpoint.Some? && x.boardAccepts
  }

  /** How many of the inputs let their cycle complete. */
  function CountCompleting(inputs: seq<CycleInput>, setpoint: Option<ControlSetpoint>): (n: nat)
  {
    if inputs == [] then 0
    else
      CountCompleting(inputs[..|inputs| - 1], setpoint)
        + (if Completes(inputs[|inputs| - 1], setpoint) then 1 else 0)
  }

  /** When each cycle completes exactly when its input lets it, the completed cycles are
      counted by the inputs alone. */
  lemma {:induction false} CompletedMatchesInputs(inputs: seq<CycleInput>, cycles: seq<Cycle>,
                                                  setpoint: Option<ControlSetpoint>)
    requires |cycles| == |inputs|
    requires forall i :: 0 <= i < |inputs| ==> Matches(inputs[i], cycles[i], setpoint)
    ensures |CompletedErrors(cycles)| == CountCompleting(inputs, setpoint)
  {
    if inputs != [] {
      CompletedMatchesInputs(inputs[..|inputs| - 1], cycles[..|cycles| - 1], setpoint);
    }
  }

  /** A run in which exactly one cycle is spoilt (no image, say) completes one cycle fewer
      than it has inputs. */
  lemma {:induction false} OneSpoiltCycle(inputs: seq<CycleInput>, setpoint: Option<ControlSetpoint>, j: nat)
    requires j < |inputs|
    requires !Completes(inputs[j], setpoint)
    requires forall i :: 0 <= i < |inputs| && i != j ==> Completes(inputs[i], setpoint)
    ensures CountCompleting(inputs, setpoint) == |inputs| - 1
    decreases |inputs|
  {
    var init := inputs[..|inputs| - 1];
    if j == |inputs| - 1 {
      AllComplete(init, setpoint);
    } else {
      OneSpoiltCycle(init, setpoint, j);
    }
  }

  /** A run whose every input lets its cycle complete completes every cycle. */
  lemma {:induction false} AllComplete(inputs: seq<CycleInput>, setpoint: Option<ControlSetpoint>)
    requires forall i :: 0 <= i < |inputs| ==> Completes(inputs[i], setpoint)
    ensures CountCompleting(inputs, setpoint) == |inputs|
    decreases |inputs|
  {
    if inputs != [] {
      AllComplete(inputs[..|inputs| - 1], setpoint);
    }
  }

  /** The sum of the entries. */
  function Sum(s: seq<real>): (r: real)
  {
    if s == [] then 0.0 else s[0] + Sum(s[1..])
  }

  /** `np.mean`, with the source's 0.0 for an empty history. */
  function Mean(s: seq<real>): (r: real)
  {
    if |s| == 0 then 0.0 else Sum(s) / (|s| as real)
  }

  /** A square is never negative. */
  lemma SquareNonNegative(x: real)
    ensures x * x >= 0.0
  {
    if x < 0.0 {
      assert (-x) * (-x) == x * x;
    }
  }

  /** A sum of squares is never negative. */
  function SumOfSquares(s: seq<real>): (r: real)
    ensures r >= 0.0
  {
    if s == [] then 0.0
    else
      SquareNonNegative(s[0]);
      s[0] * s[0] + SumOfSquares(s[1..])
  }

  /** The mean of the squares: `rms_error` before its square root. Its root is defined. */
  function MeanSquare(s: seq<real>): (r: real)
    ensures r >= 0.0
    ensures s == [] ==> r == 0.0
    ensures s != [] ==> r * (|s| as real) == SumOfSquares(s)
  {
    if |s| == 0 then 0.0 else SumOfSquares(s) / (|s| as real)
  }

  /** Bounds on every entry bound the sum. */
  lemma {:induction false} SumWithin(s: seq<real>, lo: real, hi: real)
    requires forall i :: 0 <= i < |s| ==> lo <= s[i] <= hi
    ensures lo * (|s| as real) <= Sum(s) <= hi * (|s| as real)
  {
    if s != [] {
      assert forall i :: 0 <= i < |s[1..]| ==> s[1..][i] == s[i + 1];
      SumWithin(s[1..], lo, hi);
      assert lo * (|s| as real) == lo + lo * (|s[1..]| as real);
      assert hi * (|s| as real) == hi + hi * (|s[1..]| as real);
    }
  }

  /** The mean of a non-empty sequence lies within any bounds on its entries. */
  lemma MeanWithin(s: seq<real>, lo: real, hi: real)
    requires |s| > 0
    requires forall i :: 0 <= i < |s| ==> lo <= s[i] <= hi
    ensures lo <= Mean(s) <= hi
  {
    SumWithin(s, lo, hi);
    var n := |s| as real;
    assert Mean(s) * n == Sum(s);
  }

  /** The loop object and its run state. */
  class FeedbackLoop {
    const controller: PIDController
    const loopRateHz: real
    const loopPeriod: real
    var running: bool
    var stopRequested: bool
    var setpoint: Option<ControlSetpoint>
    var lastError: real
    var lastControlOutput: real
    var loopCount: nat
    var errorHistory: seq<real>
    var outputHistory: seq<real>
    /** The error and the command of every completed cycle since construction. */
    ghost var allErrors: seq<real>
    ghost var allOutputs: seq<real>

    /** The histories are the newest entries of everything completed, pair by pair, and every
        command respects the controller's limits when they are consistent. */
    ghost predicate Valid()
      reads this
    {
      loopRateHz != 0.0 && loopPeriod == 1.0 / loopRateHz &&
      |allErrors| == loopCount && |allOutputs| == loopCount &&
      errorHistory == Newest(allErrors, MaxHistory) &&
      outputHistory == Newest(allOutputs, MaxHistory) &&
      (controller.outputMin <= controller.outputMax ==>
         forall i :: 0 <= i < |allOutputs| ==>
           controller.outputMin <= allOutputs[i] <= controller.outputMax)
    }

    /** The guard of the worker's `while` loop. */
    predicate Active()
      reads this
    {
      running && !stopRequested
    }

    constructor (controller: PIDController, loopRateHz: real)
      requires loopRateHz != 0.0
      ensures Valid() && !running && !stopRequested
      ensures this.controller == controller && this.loopRateHz == loopRateHz
      ensures setpoint == None && lastError == 0.0 && lastControlOutput == 0.0
      ensures loopCount == 0 && errorHistory == [] && outputHistory == []
    {
      this.controller := controller;
      this.loopRateHz := loopRateHz;
      loopPeriod := 1.0 / loopRateHz;
      running := false;
      stopRequested := false;
      setpoint := None;
      lastError := 0.0;
      lastControlOutput := 0.0;
      loopCount := 0;
      errorHistory := [];
      outputHistory := [];
      allErrors := [];
      allOutputs := [];
    }

    method SetSetpoint(sp: ControlSetpoint)
      requires Valid()
      modifies this`setpoint
      ensures Valid() && setpoint == Some(sp)
    {
      setpoint := Some(sp);
    }

    /** A no-op on a running loop; otherwise marks it running and clears the stop signal. */
    method Start()
      requires Valid()
      modifies this`running, this`stopRequested
      ensures Valid() && running
      ensures old(running) ==> stopRequested == old(stopRequested)
      ensures !old(running) ==> !stopRequested
    {
      if running {
        return;
      }
      running := true;
      stopRequested := false;
    }

    /** A no-op on an idle loop; otherwise clears `running` and raises the stop signal. */
    method Stop()
      requires Valid()
      modifies this`running, this`stopRequested
      ensures Valid() && !running
      ensures !old(running) ==> stopRequested == old(stopRequested)
      ensures old(running) ==> stopRequested
    {
      if !running {
        return;
      }
      running := false;
      stopRequested := true;
    }

    /** One pass of the worker's loop body, exceptions and pacing included. */
    method Step(capture: Capture, boardAccepts: bool, now: real, elapsed: real)
      returns (cycle: Cycle, wait: real)
      requires Valid() && Active()
      modifies this, controller
      ensures Valid() && Active() && setpoint == old(setpoint)
      ensures cycle == CycleOutcome(capture, old(setpoint), boardAccepts, old(controller.State()), now)
      ensures wait == if cycle.Continued() then 0.0 else PacingWait(loopPeriod, elapsed)
      ensures cycle.ReachedController() ==>
                controller.State() == UpdateStep(old(controller.State()), cycle.error, now).next &&
                lastError == cycle.error && lastControlOutput == cycle.command
      ensures !cycle.ReachedController() ==>
                controller.State() == old(controller.State()) &&
                lastError == old(lastError) && lastControlOutput == old(lastControlOutput)
      ensures cycle.Commanded? ==>
                loopCount == old(loopCount) + 1 &&
                allErrors == old(allErrors) + [cycle.error] &&
                allOutputs == old(allOutputs) + [cycle.command]
      ensures !cycle.Commanded? ==>
                loopCount == old(loopCount) && allErrors == old(allErrors) &&
                allOutputs == old(allOutputs) &&
                errorHistory == old(errorHistory) && outputHistory == old(outputHistory)
    {
      ghost var pid := controller.State();
      if capture.NoImage? {
        return SkippedNoImage, 0.0;
      }
      if capture.processed.ProcessorFault? {
        return ProcessorFaulted, PacingWait(loopPeriod, elapsed);
      }
      if setpoint.None? {
        return SkippedNoSetpoint, 0.0;
      }
      var error := ErrorFor(setpoint.value, capture.processed.values);
      lastError := error;
      var output := controller.Update(error, now);
      lastControlOutput := output;
      if !boardAccepts {
        return BoardFaulted(error, output), PacingWait(loopPeriod, elapsed);
      }
      Record(error, output);
      cycle := Commanded(error, output);
      wait := PacingWait(loopPeriod, elapsed);
    }

    /** The statistics update of a completed cycle: count it, append its pair to both
        histories, and evict the oldest pair once there are more than 1000. */
    method Record(error: real, output: real)
      requires Valid()
      requires controller.outputMin <= controller.outputMax ==>
                 controller.outputMin <= output <= controller.outputMax
      modifies this`loopCount, this`errorHistory, this`outputHistory, this`allErrors, this`allOutputs
      ensures Valid()
      ensures loopCount == old(loopCount) + 1
      ensures allErrors == old(allErrors) + [error] && allOutputs == old(allOutputs) + [output]
    {
      loopCount := loopCount + 1;
      errorHistory := errorHistory + [error];
      outputHistory := outputHistory + [output];
      if |errorHistory| > MaxHistory {
        errorHistory := errorHistory[1..];
        outputHistory := outputHistory[1..];
      }
      NewestAppend(allErrors, error, MaxHistory);
      NewestAppend(allOutputs, output, MaxHistory);
      allErrors := allErrors + [error];
      allOutputs := allOutputs + [output];
    }

    /** After the first `|cycles|` inputs of a run that started with setpoint `setpoint0`,
        controller state `pid0`, last values `lastError0` and `lastOutput0` and record
        `errors0`/`outputs0`: the passes and the controller state are those of `RunLoop`, and the
        waits, the last values and the record are what those passes leave behind. */
    ghost predicate RunSoFar(inputs: seq<CycleInput>, cycles: seq<Cycle>, waits: seq<real>,
                             setpoint0: Option<ControlSetpoint>, pid0: PidState,
                             lastError0: real, lastOutput0: real,
                             errors0: seq<real>, outputs0: seq<real>)
      reads this, controller
    {
      |cycles| <= |inputs| && setpoint == setpoint0 &&
      cycles == RunLoop(inputs[..|cycles|], setpoint0, pid0).cycles &&
      controller.State() == RunLoop(inputs[..|cycles|], setpoint0, pid0).pid &&
      WaitsFit(inputs, cycles, waits, loopPeriod) &&
      LastFits(cycles, lastError, lastControlOutput, lastError0, lastOutput0) &&
      Recorded(cycles, allErrors, allOutputs, errors0, outputs0)
    }

    /** One more pass of `ControlLoop`: `Step` on the next input, with the run extended by it. */
    method RunPass(inputs: seq<CycleInput>, cycles: seq<Cycle>, waits: seq<real>,
                   ghost setpoint0: Option<ControlSetpoint>, ghost pid0: PidState,
                   ghost lastError0: real, ghost lastOutput0: real,
                   ghost errors0: seq<real>, ghost outputs0: seq<real>)
      returns (cycles': seq<Cycle>, waits': seq<real>)
      requires Valid() && Active() && |cycles| < |inputs|
      requires RunSoFar(inputs, cycles, waits, setpoint0, pid0, lastError0, lastOutput0, errors0, outputs0)
      modifies this, controller
      ensures Valid() && Active() && |cycles'| == |cycles| + 1
      ensures RunSoFar(inputs, cycles', waits', setpoint0, pid0, lastError0, lastOutput0, errors0, outputs0)
    {
      var i := |cycles|;
      var x := inputs[i];
      ghost var errors, outputs := allErrors, allOutputs;
      ghost var error, output := lastError, lastControlOutput;
      RunLoopStep(inputs, i, setpoint0, pid0);
      var c, w := Step(x.capture, x.boardAccepts, x.now, x.elapsed);
      WaitsFitAppend(inputs, cycles, waits, loopPeriod, c, w);
      LastFitsAppend(cycles, c, error, output, lastError, lastControlOutput, lastError0, lastOutput0);
      RecordedAppend(cycles, c, errors, outputs, allErrors, allOutputs, errors0, outputs0);
      cycles', waits' := cycles + [c], waits + [w];
    }

    /** The worker's `while` loop run over a finite sequence of cycles. Nothing in this
        sequential model clears the guard, so every input is consumed. */
    method ControlLoop(inputs: seq<CycleInput>) returns (cycles: seq<Cycle>, waits: seq<real>)
      requires Valid() && Active()
      modifies this, controller
      ensures Valid() && Active() && setpoint == old(setpoint)
      ensures var run := RunLoop(inputs, old(setpoint), old(controller.State()));
              cycles == run.cycles && controller.State() == run.pid
      ensures |waits| == |inputs|
      ensures forall i :: 0 <= i < |inputs| ==>
                waits[i] == if cycles[i].Continued() then 0.0 else PacingWait(loopPeriod, inputs[i].elapsed)
      ensures LastReached(cycles).Some? ==>
                lastError == LastReached(cycles).value.error &&
                lastControlOutput == LastReached(cycles).value.command
      ensures LastReached(cycles).None? ==>
                lastError == old(lastError) && lastControlOutput == old(lastControlOutput)
      ensures loopCount == old(loopCount) + CountCompleting(inputs, setpoint)
      ensures allErrors == old(allErrors) + CompletedErrors(cycles)
      ensures allOutputs == old(allOutputs) + CompletedOutputs(cycles)
    {
      ghost var setpoint0, pid0 := setpoint, controller.State();
      ghost var errors0, outputs0 := allErrors, allOutputs;
      ghost var lastError0, lastOutput0 := lastError, lastControlOutput;
      cycles, waits := [], [];
      while |cycles| < |inputs|
        invariant Valid() && Active()
        invariant RunSoFar(inputs, cycles, waits, setpoint0, pid0, lastError0, lastOutput0, errors0, outputs0)
        decreases |inputs| - |cycles|
      {
        cycles, waits := RunPass(inputs, cycles, waits, setpoint0, pid0, lastError0, lastOutput0,
                                 errors0, outputs0);
      }
      assert inputs[..|cycles|] == inputs;
      CompletedMatchesInputs(inputs, cycles, setpoint);
    }

    /** `get_statistics`: counters as they stand and aggregates over the histories. */
    function GetStatistics(): (st: Statistics)
      reads this
      ensures st.loopCount == loopCount && st.lastError == lastError
      ensures st.lastOutput == lastControlOutput
      ensures errorHistory == [] ==> st.meanSquareError == 0.0
      ensures outputHistory == [] ==> st.meanOutput == 0.0
      ensures outputHistory != [] ==>
                st.meanOutput * (|outputHistory| as real) == Sum(outputHistory)
      ensures errorHistory != [] ==>
                st.meanSquareError * (|errorHistory| as real) == SumOfSquares(errorHistory)
      ensures st.meanSquareError >= 0.0
    {
      Statistics(loopCount, lastError, lastControlOutput,
                 MeanSquare(errorHistory), Mean(outputHistory))
    }
  }

  /** The histories hold, in order and pair by pair, the errors and commands of the newest
      min(loop_count, 1000) completed cycles. */
  lemma HistoryWindow(loop: FeedbackLoop)
    requires loop.Valid()
    ensures |loop.errorHistory| == |loop.outputHistory|
    ensures |loop.errorHistory| == if loop.loopCount <= MaxHistory then loop.loopCount else MaxHistory
    ensures forall i :: 0 <= i < |loop.errorHistory| ==>
              var k := loop.loopCount - |loop.errorHistory| + i;
              loop.errorHistory[i] == loop.allErrors[k] && loop.outputHistory[i] == loop.allOutputs[k]
  {
    var n := loop.loopCount;
    assert |loop.allErrors| == n && |loop.allOutputs| == n;
    assert |loop.errorHistory| == |loop.outputHistory|;
  }

  /** The reported mean output lies within the controller's limits once anything is recorded. */
  lemma MeanOutputWithinLimits(loop: FeedbackLoop)
    requires loop.Valid()
    requires loop.controller.outputMin <= loop.controller.outputMax
    requires loop.outputHistory != []
    ensures loop.controller.outputMin <= loop.GetStatistics().meanOutput <= loop.controller.outputMax
  {
    var h := loop.outputHistory;
    var lo, hi := loop.controller.outputMin, loop.controller.outputMax;
    forall i | 0 <= i < |h| ensures lo <= h[i] <= hi {
      assert h[i] == loop.allOutputs[|loop.allOutputs| - |h| + i];
    }
    MeanWithin(h, lo, hi);
  }
}
