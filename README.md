# Laser feedback control core, modelled in Dafny

This project models the real-time feedback core of an optical-instrument controller. A camera
image goes through a processing pipeline that yields named scalar features. The loop compares
one feature with a setpoint. A PID controller turns the error into a laser-power command,
clamped to output limits, and the command goes to an ADwin real-time board. The model also
covers the in-memory camera and board that stand in for the hardware.

Three modules, one per source file:

- `PidControl` (`pid_controller.dfy`) models `control/pid_controller.py`.
  - The pure specification is `UpdateStep`, one call of `update` on a `PidState` value.
  - Its properties are proved as lemmas: output bounds, anti-windup, the proportional-only
    case, runs of many calls, and reset against a new controller.
  - The class `PIDController` updates its fields step by step as the source does. Its methods
    are proved against `UpdateStep` and `Initial`.
  - The clock is a parameter: `Update`, `Reset` and the constructor take `now`.
- `Feedback` (`feedback_loop.dfy`) models `control/feedback_loop.py`.
  - The class `FeedbackLoop` holds the run state. The worker thread becomes the `running` and
    `stopRequested` flags plus one `Step` call per pass of the loop body.
  - The camera, pipeline and board become the `Capture` and `boardAccepts` inputs of `Step`.
    The clock readings become its `now` and `elapsed` inputs.
  - `ControlLoop` is the `while` loop run over a finite list of such inputs. Its specification
    is `RunLoop`, which threads the controller state from pass to pass. `LoopFollowsController`
    proves that the loop drives the controller exactly like successive calls of `update` on the
    samples of the passes that reach it, so the run lemmas of `PidControl` apply to the loop.
  - Two ghost fields, `allErrors` and `allOutputs`, record every completed cycle. The invariant
    `Valid` states that the bounded histories are the newest 1000 of those, pair by pair.
- `MockDevices` (`mock_devices.dfy`) models `hardware/mock_devices.py`.
  - `MockCamera` is a connected/acquiring state machine with a frame counter.
  - `MockAdWin` is a parameter table and an array store that read a default on a miss.

Arithmetic is over Dafny `real`, so the anti-windup undo restores the integral exactly.

Behaviour of the source worth knowing:

- `loop_count` counts only completed cycles: those whose board command did not raise. A run of
  ten cycles with no image on one of them ends with `loop_count` at 9 (`OneSpoiltCycle`).
- `start` does not clear the run state. The counters and histories carry over from an earlier
  run of the same loop object.
- The `continue` taken for a missing image or a missing setpoint also skips the pacing wait.
  `Step` returns a wait of 0 for both.

## Model

| member | source | states |
|---|---|---|
| `PidControl.Clip` | control/pid_controller.py:66 | The clamped value lies in `[lo, hi]` when `lo <= hi`; a value already inside is returned unchanged; above `hi` gives `hi`; below `lo` gives `lo` when `lo <= hi`; with `lo > hi` every value gives `hi`, as `np.clip` does |
| `PidControl.StepDt` | control/pid_controller.py:45-49 | The time step is always strictly positive: the true elapsed time when positive, otherwise 0.001 |
| `PidControl.Initial` | control/pid_controller.py:29-31 | A new controller starts with integral 0, last error 0 and last time `now`, with the given gains and limits |
| `PidControl.UpdateStep` | control/pid_controller.py:35-76 | One update keeps gains and limits, records the error and the time, and returns a command within the limits when `lo <= hi` |
| `PidControl.StepAntiWindup` | control/pid_controller.py:52-70 | Unsaturated: the command is `kp*e + ki*(I + e*dt) + kd*(e - last)/dt` and the integral becomes `I + e*dt`. Saturated: the command is a limit and the integral is exactly `I` again |
| `PidControl.ProportionalOnlyStep` | control/pid_controller.py:52-66 | With `ki == 0` and `kd == 0`, one update returns `clamp(kp*e, lo, hi)` |
| `PidControl.ProportionalOnlyRun` | control/pid_controller.py:52-66 | With `ki == 0` and `kd == 0`, every command of every run of updates is `clamp(kp*e, lo, hi)` of its own error, whatever came before |
| `PidControl.RunOutputsBounded` | control/pid_controller.py:66 | Every command of every run of updates lies within consistent limits |
| `PidControl.Final` | control/pid_controller.py:35-76 | A run of updates never changes the gains or the limits |
| `PidControl.OutputsAppend` | control/pid_controller.py:35-76 | One more update extends a run's commands by the command of an update from the state the run left behind, and that update's state is the run's new final state |
| `PidControl.SaturatedRunKeepsIntegral` | control/pid_controller.py:55-70 | However many updates saturate in a row, the integral after them equals the integral before them |
| `PidControl.ResetThenUpdateIsFresh` | control/pid_controller.py:78-82 | An update after `reset` gives the same command and state as the first update of a new controller with the same gains, limits and start time |
| `PidControl.FirstUpdate` | control/pid_controller.py:45-66 | The first update of a new controller returns `clamp(kp*e + ki*e*dt + kd*e/dt, lo, hi)`, for any limits |
| `PidControl.PIDController.constructor` | control/pid_controller.py:12-31 | The object's state is `Initial(gains, limits, now)` |
| `PidControl.PIDController.Update` | control/pid_controller.py:35-76 | Adding, then possibly subtracting `e*dt` in place leaves exactly the state and command of `UpdateStep`; last error and last time are the call's |
| `PidControl.PIDController.Reset` | control/pid_controller.py:78-82 | The state becomes `Initial` with the same gains and limits and the new time |
| `PidControl.PIDController.SetGains` | control/pid_controller.py:85-89 | Only the three gains change; integral, last error, last time and limits are kept |
| `Feedback.Measured` | control/feedback_loop.py:113-115 | The measured value is the named feature, or 0.0 when the pipeline did not report it |
| `Feedback.ErrorFor` | control/feedback_loop.py:116 | The error plus the measured value is the target value |
| `Feedback.CycleOutcome` | control/feedback_loop.py:98-146 | A pass is skipped exactly when there is no image, faults exactly when the pipeline raises, and skips exactly when there is no setpoint. Otherwise it computes the error from the setpoint and hands the board exactly the controller's command; it completes exactly when the board accepts it |
| `Feedback.BoardCommandWithinLimits` | control/feedback_loop.py:120-124 | Whatever the board is sent lies within the controller's limits when they are consistent |
| `Feedback.PacingWait` | control/feedback_loop.py:149-152 | The wait is never negative. It is positive exactly when the pass took less than the period, and then it tops the pass up to exactly one period. It never exceeds the period when the elapsed time and the period are non-negative; a clock that steps back gives a negative elapsed time and a longer wait |
| `Feedback.Newest` | control/feedback_loop.py:131-134 | The window holds `min(|s|, n)` entries, and they are the last ones of `s`, in order |
| `Feedback.NewestAppend` | control/feedback_loop.py:128-134 | Appending and then evicting the oldest entry once there are more than `n` gives exactly the newest `n` of the extended sequence |
| `Feedback.CompletedMatchesInputs` | control/feedback_loop.py:126-129 | The number of completed cycles is the number of inputs that let their cycle complete |
| `Feedback.AppendCycle` | control/feedback_loop.py:126-129 | One more pass adds its error and command to the completed ones exactly when it completed, and adds nothing otherwise |
| `Feedback.LastReachedAppend` | control/feedback_loop.py:117-121 | One more pass becomes the last pass that reached the controller exactly when it reached it |
| `Feedback.AfterCycle` | control/feedback_loop.py:117-120 | A pass never changes the controller's gains or limits |
| `Feedback.RunLoop` | control/feedback_loop.py:95-152 | A run has one pass per input. Each pass is skipped for want of an image exactly when there is none, and completes exactly when its input lets it |
| `Feedback.RunLoopStep` | control/feedback_loop.py:95-152 | A run one input longer is the shorter run followed by one more pass, which starts from the controller state the shorter run left behind |
| `Feedback.RunLoopPass` | control/feedback_loop.py:95-152 | Pass `i` of a run ends as `CycleOutcome` says for input `i`, from the controller state the `i` passes before it left behind |
| `Feedback.LastReached` | control/feedback_loop.py:117-121 | A pass of the run that reached the controller and after which no pass did, that is the last one; absent exactly when no pass of the run reached it |
| `Feedback.LoopFollowsController` | control/feedback_loop.py:112-121 | The commands of a run are exactly the outputs of successive `update` calls on the errors and clock readings of the passes that reach the controller, and the final controller state is that of those calls |
| `Feedback.ProportionalOnlyLoop` | control/feedback_loop.py:117-121 | With `ki == 0` and `kd == 0`, every command a run sends is the clamped proportional term of that pass's own error |
| `Feedback.WaitsFitAppend` | control/feedback_loop.py:147-152 | A pass that waits 0 after a `continue` and `max(0, period - elapsed)` otherwise keeps every wait of the run so |
| `Feedback.LastFitsAppend` | control/feedback_loop.py:117-121 | A pass that sets `last_error` and `last_control_output` exactly when it reaches the controller keeps them those of the last pass that did |
| `Feedback.RecordedAppend` | control/feedback_loop.py:126-129 | A pass that records its pair exactly when it completes keeps the full record equal to the earlier record followed by the pairs of the completed passes |
| `Feedback.OneSpoiltCycle` | control/feedback_loop.py:100-103 | When exactly one cycle of a run is spoilt, one cycle fewer than the number of inputs completes |
| `Feedback.AllComplete` | control/feedback_loop.py:126-127 | When every input lets its cycle complete, every cycle completes |
| `Feedback.SumOfSquares` | control/feedback_loop.py:160 | The sum of squared errors is never negative |
| `Feedback.MeanSquare` | control/feedback_loop.py:160-161 | The mean squared error is never negative, so its square root exists. It is 0.0 for an empty history, and otherwise it times the count is the sum of the squares |
| `Feedback.SumWithin` | control/feedback_loop.py:162 | Bounds on every entry bound the sum by count times bound |
| `Feedback.MeanWithin` | control/feedback_loop.py:162 | The mean of a non-empty sequence lies within any bounds on its entries |
| `Feedback.FeedbackLoop.constructor` | control/feedback_loop.py:28-60 | The loop starts idle, with no setpoint, zero counters and empty histories |
| `Feedback.FeedbackLoop.SetSetpoint` | control/feedback_loop.py:62-66 | The setpoint is replaced as a whole; nothing else changes |
| `Feedback.FeedbackLoop.Start` | control/feedback_loop.py:68-78 | A no-op on a running loop; otherwise the loop is running and the stop signal is clear |
| `Feedback.FeedbackLoop.Stop` | control/feedback_loop.py:80-89 | A no-op on an idle loop; otherwise the loop is idle and the stop signal is raised |
| `Feedback.FeedbackLoop.Step` | control/feedback_loop.py:96-152 | The pass ends as `CycleOutcome` says. The controller is called exactly when the pass reaches it, and then `last_error` and `last_control_output` are the error and the command. Only a completed pass adds one to `loop_count` and appends its pair to the histories; all other passes leave them alone. The wait is 0 after a `continue`, else `max(0, period - elapsed)`. The histories stay the newest 1000 pairs |
| `Feedback.FeedbackLoop.Record` | control/feedback_loop.py:126-134 | A completed pass adds one to `loop_count` and appends its error and command to the full record; the histories stay exactly the newest 1000 pairs, and every recorded command stays within the limits |
| `Feedback.FeedbackLoop.RunPass` | control/feedback_loop.py:95-152 | One more pass of the loop extends the run by exactly the pass `RunLoop` prescribes, with its wait, last values and record |
| `Feedback.FeedbackLoop.ControlLoop` | control/feedback_loop.py:95-152 | The passes and the final controller state are those of `RunLoop` from the setpoint and controller state at the start. Every wait is 0 after a `continue` and `max(0, period - elapsed)` otherwise. `last_error` and `last_control_output` are those of the last pass that reached the controller, or unchanged when none did. `loop_count` grows by the number of completing inputs, and the recorded errors and commands grow by those of the completed passes, in order |
| `Feedback.FeedbackLoop.GetStatistics` | control/feedback_loop.py:154-164 | The counters are reported as they stand. Both aggregates are 0.0 for an empty history. Otherwise the mean output times the count is the sum of the outputs, and the mean squared error times the count is the sum of the squared errors, which is never negative |
| `Feedback.HistoryWindow` | control/feedback_loop.py:128-134 | The two histories have equal length `min(loop_count, 1000)` and hold, pair by pair and in order, the errors and commands of the newest completed cycles |
| `Feedback.MeanOutputWithinLimits` | control/feedback_loop.py:162-163 | Once anything is recorded, the reported mean output lies within the controller's limits when the limits are consistent |
| `MockDevices.SlicePrefix` | hardware/mock_devices.py:137 | Python's `s[:n]` is a prefix of `s`, of length `min(n, |s|)`, or `max(0, |s| + n)` for negative `n` |
| `MockDevices.Zeros` | hardware/mock_devices.py:138 | `np.zeros(n)` is `n` zeros, and raises exactly when `n` is negative |
| `MockDevices.MockCamera.constructor` | hardware/mock_devices.py:14-21 | A new camera is disconnected and idle, with exposure 100.0, gain 1, temperature -70.0 and no frames |
| `MockDevices.MockCamera.Connect` | hardware/mock_devices.py:23-26 | Always succeeds and leaves the camera connected |
| `MockDevices.MockCamera.Disconnect` | hardware/mock_devices.py:28-31 | Leaves the camera neither connected nor acquiring |
| `MockDevices.MockCamera.StartAcquisition` | hardware/mock_devices.py:33-38 | Succeeds exactly when connected, and only then sets `acquiring` |
| `MockDevices.MockCamera.StopAcquisition` | hardware/mock_devices.py:40-42 | Clears `acquiring` |
| `MockDevices.MockCamera.AcquireImage` | hardware/mock_devices.py:44-46 | Increments the frame counter by exactly one, whatever the connection state |
| `MockDevices.MockCamera.SetExposure` | hardware/mock_devices.py:61-63 | Stores the exposure and nothing else |
| `MockDevices.MockCamera.SetGain` | hardware/mock_devices.py:65-67 | Stores the gain and nothing else |
| `MockDevices.MockCamera.SetTemperature` | hardware/mock_devices.py:69-71 | Afterwards the reported temperature is the value set plus 5.0 |
| `MockDevices.MockCamera.GetTemperature` | hardware/mock_devices.py:73-75 | The reported temperature is always 5 degrees above the stored setpoint |
| `MockDevices.MockCamera.GetInfo` | hardware/mock_devices.py:77-82 | Reports the fixed model and index, and the status "connected" exactly when connected |
| `MockDevices.MockAdWin.constructor` | hardware/mock_devices.py:88-92 | A new board is disconnected with no parameters and no arrays |
| `MockDevices.MockAdWin.Connect` | hardware/mock_devices.py:94-97 | Always succeeds and leaves the board connected |
| `MockDevices.MockAdWin.Disconnect` | hardware/mock_devices.py:99-101 | Leaves the board disconnected |
| `MockDevices.MockAdWin.SetParameter` | hardware/mock_devices.py:118-120 | The parameter reads back as written; every other parameter reads as before |
| `MockDevices.MockAdWin.GetParameter` | hardware/mock_devices.py:122-123 | A written parameter reads its value; one never written reads 0.0 |
| `MockDevices.MockAdWin.SetFPar` | hardware/mock_devices.py:125-126 | Writes the parameter, which then reads back through `GetFPar` |
| `MockDevices.MockAdWin.GetFPar` | hardware/mock_devices.py:128-129 | Reads as `GetParameter`, with 0.0 for a parameter never written |
| `MockDevices.MockAdWin.UploadArray` | hardware/mock_devices.py:131-133 | Stores the array's contents as a value, so later writes to the caller's array do not reach it; downloading any length up to the array's gives its prefix back |
| `MockDevices.MockAdWin.DownloadArray` | hardware/mock_devices.py:135-138 | A stored array comes back cut to `length`, i.e. `min(length, stored length)` entries for non-negative `length`; with nothing stored, `length` zeros, or an error for a negative length |
| `MockDevices.MockAdWin.SetDataFloat` | hardware/mock_devices.py:140-141 | Ignores `start` and `count` and stores the whole array, which downloads back in full |
| `MockDevices.MockAdWin.SetDataLong` | hardware/mock_devices.py:147-148 | Ignores `start` and `count` and stores the whole integer array; no other array changes |
| `MockDevices.MockAdWin.GetDataFloat` | hardware/mock_devices.py:143-145 | With nothing stored the buffer is untouched. Otherwise the buffer becomes the stored prefix when the lengths match, or is filled with it when the prefix has one entry. Any other length raises with the buffer untouched |

## Left out

- Threads: the worker `Thread`, the stop `Event`, `join(timeout=2.0)` and the interruptible wait in `control/feedback_loop.py`. The loop is the sequential `Step`/`ControlLoop`. Races with concurrent `set_setpoint`, `reset`, `set_gains` or `stop` calls are not modelled, and neither is a worker abandoned after the join timeout.
- `Feedback.FeedbackLoop.ControlLoop`: the worker's guard is checked on every pass, but nothing in a sequential model can clear it during the run, so every input is consumed.
- `Feedback.FeedbackLoop.constructor`: requires `loopRateHz != 0`. The source computes `1.0 / loop_rate_hz` and raises `ZeroDivisionError` for a rate of 0; that error path is not modelled. The default arguments `loop_rate_hz=10.0` (`control/feedback_loop.py:29`) and `output_limits=(0, 100)` (`control/pid_controller.py:13`) are not modelled either: callers always pass both.
- Wall-clock time: every `time.time()` reading is a `now` or `elapsed` parameter.
- Logging: it has no effect on state.
- Floating point: all arithmetic is over exact reals, so rounding in the PID sum and in the anti-windup undo is not modelled. NaN and infinities do not arise.
- `Feedback.FeedbackLoop.GetStatistics`: reports the mean of the squared errors, not its square root (`np.sqrt`), since Dafny has no square root on `real`. The `rms_error` the source reports is the root of `meanSquareError`.
- The collaborators of the loop are inputs, not objects. The camera's image, the pipeline's numerics and the board's `set_laser_power` voltage conversion are in `processing/pipeline.py` and `hardware/adwin_board.py`, which are not part of this model. A controller other than `PIDController` that raises is not modelled; the modelled one never raises.
- `MockDevices.MockCamera.AcquireImage`: returns the frame number in place of the synthetic image. The random Poisson noise and the moving spot are not modelled.
- `MockDevices.MockAdWin.DownloadArray`: returns a value. The source returns a numpy view, so a caller writing into the result would also change the stored array. That aliasing is not modelled.
- `MockDevices.MockAdWin.SetDataLong`: the stored integer array is held as reals; the integer dtype is not tracked.
- `MockAdWin.Processor_Type`, `Workload`, `Load_Process`, `Start_Process` and `Stop_Process` return fixed values or only log, so they are not modelled.
- `hardware/base.py` only declares the abstract interfaces; `hardware/andor_camera.py`, `hardware/adwin_board.py`, `gui/main_window.py`, `core/app.py`, `core/config_manager.py` and `main.py` are not part of this model.
