# SPM_Project control core in Dafny

This project models the sequential control and bookkeeping code of a scanning probe microscope
(SPM) controller and proves properties of it. The modelled parts are:

- the motion-backend contract and its G-code implementation for a Prusa printer over a serial
  line: the command text, the response collection up to the first `ok`, and the connection state;
- Z-axis regulation: the simulated Z driver, the driver factory, the proportional controller and
  the PID feedback simulator;
- the scan modes (STM, AFM contact, AFM non-contact, profiling) with their shared base state, and
  the scan manager that drives them;
- the simulation side: the mock stepper motor, the scan-pattern generator, the grid scan
  simulator and the surface model;
- the three bounded sample buffers behind the live plot.

Python floats are modelled as exact `real`s and exceptions as `Result` values (`Results.PyError`).
numpy's `linspace`, `meshgrid`, `clip` and indexing are modelled exactly (`ArrayModel`,
`ScanConfig`). Its trigonometric, exponential and random generators are function parameters the
model does not interpret.

Module layout, one file per module:

- `Results`, `Text`, `ArrayModel`, `ScanConfig` hold shared values: Option and Result, string
  strip, lower and split, linspace and flattening, and config lookup.
- `MotionBackend`, `Gcode`, `PrusaGcodeBackend` model `core/motion`.
- `ZDriverSimulated`, `ZInterface`, `ZFeedback` model `core/z_control`.
- `BaseScanMode`, `RasterScan`, `ScanZDriver`, `ScanModes`, `ScanManager` model `core/scan`.
- `MockMotorDriver`, `ZFeedbackSimulator`, `ScanPatternSimulator`, `ScanSimulator` and
  `SurfaceModelSimulator` model `simulation`.
- `LivePlotArea` models `interface/layout/live_plot_area.py`.

The three area scan modes share one class, `ScanModes.AreaScanMode`, with a named constructor per
mode. Their code differs only in config defaults and in how a looked-up value becomes z.

## Model

| member | source | states |
|---|---|---|
| Gcode.MoveCommandTokens | core/motion/prusa_gcode_backend.py:122-131 | The move line is "G1" followed by one whitespace-free token per non-None argument, single-space separated and already stripped; all four None give the bare "G1" |
| Gcode.MoveWordLetters | core/motion/prusa_gcode_backend.py:123-130 | Every word of a move line is addressed by X, Y, Z or F |
| Gcode.MoveCommandHonoursContract | core/motion/motion_backend.py:30-43 | Executed by firmware in absolute mode, the move line sets each given axis (and the feed rate) to the given absolute value and leaves every None axis unchanged |
| Gcode.MoveAfterAbsoluteMode | core/motion/prusa_gcode_backend.py:92-94 | After the G90 that connect sends, a move line is absolute whatever mode the firmware was in before |
| Gcode.HomeCommandHomesAll | core/motion/prusa_gcode_backend.py:111 | A check on the firmware model, not a property of home(): the G28 line parses as one word with no axis letter, and the model then brings every axis home and keeps the feed rate |
| Gcode.EmergencyStopHalts | core/motion/prusa_gcode_backend.py:142 | A check on the firmware model, not a property of emergency_stop(): the M112 line parses as the halt word, and after it no later line of the model changes the machine |
| Gcode.HaltedIgnoresAll | core/motion/motion_backend.py:52-55 | A check on the firmware model: by induction over the lines, a halted machine stays as it is |
| PrusaGcodeBackend.Collect | core/motion/prusa_gcode_backend.py:38-53 | The reads consumed never exceed the queue, and none are consumed only when nothing arrives |
| PrusaGcodeBackend.CollectShape | core/motion/prusa_gcode_backend.py:44-52 | Every kept line is stripped and non-blank; only the last kept line can be an "ok" line, and it is one whenever reading stopped before the queue ran out |
| PrusaGcodeBackend.CollectStopsAtFirstOk | core/motion/prusa_gcode_backend.py:50-52 | When line i is the first "ok", exactly lines 0..i are read, and the stripped non-blank ones are kept in arrival order |
| PrusaGcodeBackend.CollectTimesOut | core/motion/prusa_gcode_backend.py:42-53 | With no "ok" line, every line is read and every non-blank one is kept |
| PrusaGcodeBackend.TimedOutIffNoOk | core/motion/prusa_gcode_backend.py:43-53 | Reading ends without an "ok" line (runs into the timeout) exactly when no line of the pending input strips to an "ok" line |
| PrusaGcodeBackend.ReadOutcome | core/motion/prusa_gcode_backend.py:43-53 | A read error is reported only for a device whose readline raises, and then only when no "ok" line ended the loop first; a success returns the Collect lines |
| PrusaGcodeBackend.OkLineAvoidsReadFailure | core/motion/prusa_gcode_backend.py:43-52 | When an "ok" line is pending, even a device whose readline would raise afterwards gives the Collect lines, because the loop stops before that read |
| PrusaGcodeBackend.PrusaGcodeBackend.constructor | core/motion/prusa_gcode_backend.py:23-29 | A new backend has no port object, is not connected, and its state is {"connected": False} |
| PrusaGcodeBackend.PrusaGcodeBackend.ReadPending | core/motion/prusa_gcode_backend.py:43-52 | The read loop over the pending lines returns exactly the Collect lines, consumes exactly the lines Collect read, and reports whether an "ok" line ended it; nothing is written |
| PrusaGcodeBackend.PrusaGcodeBackend.ReadUntilOk | core/motion/prusa_gcode_backend.py:38-53 | Returns ReadOutcome of the pending input: the Collect lines, or a propagated readline error when the input ran out without an "ok" line on a device whose readline raises; consumes exactly the lines Collect read; nothing is written |
| PrusaGcodeBackend.PrusaGcodeBackend.SendGcode | core/motion/prusa_gcode_backend.py:55-67 | Not connected raises; a blank command returns [] and touches nothing; a failing write raises before anything is read; otherwise exactly the stripped command and "\n" are written and the response is collected, a readline error propagating after the write |
| PrusaGcodeBackend.PrusaGcodeBackend.Connect | core/motion/prusa_gcode_backend.py:72-97 | Missing pyserial or port raises before any port is opened; a failing open propagates and leaves the backend as it was (an already connected backend keeps its old port); otherwise the state records connected, port and baudrate, and only G90 is sent, a write or readline failure of it swallowed |
| PrusaGcodeBackend.PrusaGcodeBackend.Disconnect | core/motion/prusa_gcode_backend.py:99-107 | Always ends with no port, not connected and state {"connected": False}, even when close fails |
| PrusaGcodeBackend.PrusaGcodeBackend.Home | core/motion/prusa_gcode_backend.py:109-111 | Sends exactly G28 when connected, and raises otherwise; a write or readline error of the send propagates |
| PrusaGcodeBackend.PrusaGcodeBackend.MoveTo | core/motion/prusa_gcode_backend.py:113-132 | Sends exactly the move line of its arguments when connected, and raises otherwise; a write or readline error of the send propagates |
| PrusaGcodeBackend.PrusaGcodeBackend.GetState | core/motion/prusa_gcode_backend.py:134-136 | Returns the cached state |
| PrusaGcodeBackend.PrusaGcodeBackend.EmergencyStop | core/motion/prusa_gcode_backend.py:138-144 | Sends M112 and ends disconnected whatever happened, a readline error included; an error of the send still propagates |
| MockMotorDriver.Origin | simulation/mock_motor_driver.py:12 | Exactly the axes x, y and z, all at 0.0 |
| MockMotorDriver.Round4 | simulation/mock_motor_driver.py:29-32 | round(x, 4) lies within 0.00005 of x |
| MockMotorDriver.Round4Idempotent | simulation/mock_motor_driver.py:29-32 | Rounding an already rounded value changes nothing |
| MockMotorDriver.WaypointBetween | simulation/mock_motor_driver.py:23-28 | Every intermediate position the loop reaches lies between the start and the target |
| MockMotorDriver.LastWaypointNearTarget | simulation/mock_motor_driver.py:26-28 | After floor(\|target - start\| / 0.1) steps the cursor is less than one step from the target |
| MockMotorDriver.MockMotorDriver.constructor | simulation/mock_motor_driver.py:11-14 | A new driver has x, y and z at 0.0 |
| MockMotorDriver.MockMotorDriver.MoveTo | simulation/mock_motor_driver.py:16-32 | An unknown axis raises ValueError and changes nothing; otherwise only that axis changes, it passes through the rounded waypoints and ends at round(target, 4) |
| MockMotorDriver.MockMotorDriver.GetPosition | simulation/mock_motor_driver.py:34-36 | Returns the position dictionary as a value, which a caller cannot alias |
| MockMotorDriver.MockMotorDriver.ResetPosition | simulation/mock_motor_driver.py:38-40 | All three axes return to 0.0 |
| ZDriverSimulated.SimulatedZDriver.constructor | core/z_control/z_driver_simulated.py:6-7 | A new driver is at 0.0 |
| ZDriverSimulated.SimulatedZDriver.MoveTo | core/z_control/z_driver_simulated.py:9-11 | The position becomes z |
| ZDriverSimulated.SimulatedZDriver.GetPosition | core/z_control/z_driver_simulated.py:13-14 | Returns the last commanded position |
| ZDriverSimulated.SimulatedZDriver.Close | core/z_control/z_driver_simulated.py:16-17 | Changes nothing |
| ZInterface.GetZDriver | core/z_control/z_interface.py:12-25 | The Arduino driver if and only if the mode is exactly the string 'hardware'; otherwise the simulated driver |
| ZInterface.DefaultModeIsSimulated | core/z_control/z_interface.py:12 | The default mode 'simulated' yields the simulated driver |
| ZInterface.BoolModeIsSimulated | core/z_control/z_interface.py:22-25 | A boolean hardware_mode, True included, yields the simulated driver |
| ZInterface.CallAsWritten | core/z_control/z_driver_simulated.py:5-17 | A method call on a driver raises AttributeError exactly when its class lacks the method |
| ZInterface.ScanModeDriverCallsFail | core/scan/modes/stm_mode.py:47-73 | As written, the scan modes' initialize, set_z_position and shutdown calls all raise AttributeError on the driver the factory returns |
| ZFeedback.AtSetpointHolds | core/z_control/z_feedback.py:15-18 | At the setpoint the commanded position equals the driver's prior position |
| ZFeedback.CorrectionFollowsError | core/z_control/z_feedback.py:15-18 | With a positive gain the position moves up when the measurement is below the setpoint and down when it is above |
| ZFeedback.ZFeedbackController.constructor | core/z_control/z_feedback.py:10-13 | Stores the driver, setpoint and gain |
| ZFeedback.ZFeedbackController.Update | core/z_control/z_feedback.py:15-20 | Returns the driver's prior position plus gain·(setpoint − measured) and leaves the driver at exactly that position; setpoint and gain are untouched |
| ZFeedbackSimulator.PidUpdate | simulation/z_feedback_simulator.py:27-44 | One update keeps gains and setpoint, stores the new error setpoint − measured as last_error, and grows the integral by exactly that error |
| ZFeedbackSimulator.RunKeepsGains | simulation/z_feedback_simulator.py:27-44 | Any number of updates leaves gains and setpoint unchanged |
| ZFeedbackSimulator.RunSnoc | simulation/z_feedback_simulator.py:27-44 | Updates compose: a run followed by one update is the run over the longer sequence |
| ZFeedbackSimulator.RunIntegral | simulation/z_feedback_simulator.py:31-32 | After a run the integral is the initial integral plus the sum of the errors, with no clamping, and last_error is the last error |
| ZFeedbackSimulator.RunPosition | simulation/z_feedback_simulator.py:27-44 | Closed form of z after a run: kp times the error sum, plus ki times the summed integrals, plus kd times the last error minus the initial last error |
| ZFeedbackSimulator.ConstantErrorWindsUp | simulation/z_feedback_simulator.py:31-32 | A constant error makes the integral grow linearly without bound (no anti-windup) |
| ZFeedbackSimulator.ResetThenZero | simulation/z_feedback_simulator.py:19-44 | After reset with setpoint 0, update(0) returns 0 and leaves every state variable at zero |
| ZFeedbackSimulator.ZFeedbackSimulator.constructor | simulation/z_feedback_simulator.py:9-17 | Stores gains and setpoint; z_position, last_error and integral start at 0 |
| ZFeedbackSimulator.ZFeedbackSimulator.Reset | simulation/z_feedback_simulator.py:19-25 | Zeroes the three state variables and keeps gains and setpoint |
| ZFeedbackSimulator.ZFeedbackSimulator.Update | simulation/z_feedback_simulator.py:27-44 | One PID step: error, integral += error, derivative, z += kp·e + ki·integral + kd·d, last_error := error; returns the new z |
| ZFeedbackSimulator.ZFeedbackSimulator.SetPid | simulation/z_feedback_simulator.py:46-55 | Replaces only the gains given as non-None |
| ZFeedbackSimulator.ZFeedbackSimulator.SetSetpoint | simulation/z_feedback_simulator.py:57-61 | Changes only the setpoint |
| BaseScanMode.EffectiveConfig | core/scan/base_scan_mode.py:12 | None becomes {}, any other config is kept |
| BaseScanMode.ScanState.constructor | core/scan/base_scan_mode.py:11-14 | A new mode starts at (0, 0) with a fresh empty buffer and the effective config |
| BaseScanMode.ScanState.GetData | core/scan/base_scan_mode.py:39-43 | Returns the live buffer object itself, not a copy |
| BaseScanMode.ScanState.SetConfig | core/scan/base_scan_mode.py:45-49 | Replaces the config and leaves the position alone |
| BaseScanMode.GetDataAliases | core/scan/base_scan_mode.py:39-43 | An append through the buffer get_data returned is seen by the scan state |
| ScanConfig.Get | core/scan/modes/stm_mode.py:22-33 | cfg.get(key, default): the stored value when present, even None, else the default |
| ScanConfig.Divide | core/scan/modes/stm_mode.py:34-35 | TypeError unless both operands are numbers, then ZeroDivisionError for a zero divisor; the quotient times the divisor is the dividend |
| ScanConfig.SampleCount | core/scan/modes/stm_mode.py:79-80 | linspace accepts exactly a non-negative int; a negative int raises ValueError and a non-int raises TypeError |
| ScanConfig.Trunc | core/scan/modes/stm_mode.py:89-90 | int() of a float truncates toward zero |
| ScanConfig.AxisIndex | core/scan/modes/stm_mode.py:91 | A numpy index succeeds iff it is in [−n, n), counting negative indexes from the end; otherwise IndexError |
| RasterScan.AreaAdvance | core/scan/modes/stm_mode.py:60-68 | Done exactly when both the x step and the following row step reach their ranges; otherwise x advances, or x returns to 0 and y advances |
| RasterScan.Trace | core/scan/modes/stm_mode.py:54-69 | A trace starts at the given position and has at most fuel entries |
| RasterScan.TraceLinks | core/scan/modes/stm_mode.py:60-68 | Consecutive trace positions are exactly one cursor step apart |
| RasterScan.TraceFrom | core/scan/modes/stm_mode.py:60-68 | From cell i·n+j of a uniform grid the remaining cells are visited in row-major order and the last step reports done |
| RasterScan.FullAreaScan | core/scan/modes/stm_mode.py:54-69 | A scan from (0, 0) at resolution n samples exactly n² positions, cell m at column m mod n and row m div n, all within the ranges, and its last step reports done |
| RasterScan.FullAreaScanEnds | core/scan/modes/stm_mode.py:65-66 | The n²-th sampled position is the one whose step reports done |
| RasterScan.CursorInside | core/scan/modes/stm_mode.py:60-64 | Every grid cell lies in [0, x_range) × [0, y_range) |
| RasterScan.ProfileAdvance | core/scan/modes/profiling_mode.py:47-52 | Done iff pos + step reaches the range; otherwise the next position is pos + step |
| RasterScan.ProfileTrace | core/scan/modes/profiling_mode.py:38-52 | A profile trace starts at the given position and has at most fuel entries |
| RasterScan.ProfileTraceFrom | core/scan/modes/profiling_mode.py:47-52 | From point k of a profile with step range/n, the remaining points are k·step, (k+1)·step, … and the last step reports done |
| RasterScan.FullProfileScan | core/scan/modes/profiling_mode.py:28-52 | A profile from 0 at resolution n samples exactly n positions, all in [0, range) |
| ScanModes.AreaSettingsFrom | core/scan/modes/afm_contact_mode.py:20-25 | Reads ranges, resolution and setpoint with their defaults; the steps are range/resolution with Python's TypeError and ZeroDivisionError |
| ScanModes.StmSettings | core/scan/modes/stm_mode.py:19-35 | Config None is allowed; a non-None scan_area sets both ranges, else each defaults to 10; resolution defaults to 100, setpoint to 1.0 |
| ScanModes.ContactSettings | core/scan/modes/afm_contact_mode.py:20-25 | Config None raises AttributeError; the setpoint defaults to 1.0 |
| ScanModes.NonContactSettings | core/scan/modes/afm_noncontact_mode.py:23-28 | Config None raises AttributeError; ranges are stored as given and the setpoint defaults to 0.8 |
| ScanModes.AreaDefaults | core/scan/modes/stm_mode.py:29-35 | With no configuration every area mode scans 10 × 10 at resolution 100 with steps 0.1 |
| ScanModes.ZeroResolutionFails | core/scan/modes/stm_mode.py:34-35 | Resolution 0 fails at construction with ZeroDivisionError in all three area modes |
| ScanModes.ClampedIndex | core/scan/modes/stm_mode.py:89-90 | The index is at most resolution − 1, and non-negative for a non-negative coordinate ratio |
| ScanModes.AreaCellIndex | core/scan/modes/stm_mode.py:85-91 | A zero range raises ZeroDivisionError, a missing surface TypeError; a successful index lies inside the surface |
| ScanModes.CellIndexInBounds | core/scan/modes/stm_mode.py:89-91 | A position on the same side of 0 as the ranges always finds a cell of a non-empty surface |
| ScanModes.AmplitudeToZ | core/scan/modes/afm_noncontact_mode.py:72-74 | z is positive and z · (amplitude + 0.01) = 1 |
| ScanModes.AmplitudeToZBounds | core/scan/modes/afm_noncontact_mode.py:60-74 | Over the amplitude map's range [0.8, 1.2] the commanded z stays within [1/1.21, 1/0.81] |
| ScanModes.AreaMeasure | core/scan/modes/afm_noncontact_mode.py:38-42 | The lookup fails exactly when the cell index fails; non-contact z lies within [1/1.21, 1/0.81] |
| ScanModes.AreaScanLookupsSucceed | core/scan/modes/stm_mode.py:54-69 | On a uniform n × n scan over a surface generated at resolution n, no lookup fails from initialize to done |
| ScanModes.AreaScanMode.Stm | core/scan/modes/stm_mode.py:14-36 | STM settings, scan_area recorded, position (0, 0), empty buffer, no surface, no driver calls |
| ScanModes.AreaScanMode.AfmContact | core/scan/modes/afm_contact_mode.py:16-26 | AFM contact settings, position (0, 0), empty buffer, no surface, no driver calls |
| ScanModes.AreaScanMode.AfmNonContact | core/scan/modes/afm_noncontact_mode.py:19-29 | AFM non-contact settings, position (0, 0), empty buffer, no surface, no driver calls |
| ScanModes.AreaScanMode.Initialize | core/scan/modes/stm_mode.py:47-52 | A resolution linspace rejects raises and changes nothing; otherwise the surface is set, the position is (0, 0), the buffer is emptied and the driver receives initialize |
| ScanModes.AreaScanMode.PerformStep | core/scan/modes/stm_mode.py:54-69 | A failed lookup raises before any change; otherwise z goes to the driver, (x, y, z) of the pre-step position is appended, and the result is done with the position kept or running with the next position |
| ScanModes.AreaScanMode.Finalize | core/scan/modes/stm_mode.py:71-73 | The driver receives shutdown |
| ScanModes.ProfilingSettings | core/scan/modes/profiling_mode.py:15-29 | Config None raises AttributeError at config.get("axis") despite the guard; defaults axis "x", range 10, resolution 200, setpoint 1.0, profile_length 100 |
| ScanModes.ProfileIndex | core/scan/modes/profiling_mode.py:64-66 | A zero range raises ZeroDivisionError, a missing profile TypeError; a successful index is below the profile length, and a non-negative ratio always succeeds |
| ScanModes.ProfileSample | core/scan/modes/profiling_mode.py:42-45 | (pos, 0, h) when axis is "x", (0, pos, h) for any other axis value |
| ScanModes.ProfileScanLookupsSucceed | core/scan/modes/profiling_mode.py:38-52 | A profile at resolution n samples n positions from initialize to done, and no lookup fails |
| ScanModes.ProfilingMode.constructor | core/scan/modes/profiling_mode.py:15-29 | Profiling settings, no position and no profile before initialize, empty buffer |
| ScanModes.ProfilingMode.Initialize | core/scan/modes/profiling_mode.py:31-36 | A rejected resolution raises and changes nothing; otherwise position 0, buffer emptied, driver initialized |
| ScanModes.ProfilingMode.PerformStep | core/scan/modes/profiling_mode.py:38-52 | AttributeError before initialize; a failed lookup changes nothing; otherwise driver call and one sample, then done (position kept) or running with pos + step |
| ScanModes.ProfilingMode.Finalize | core/scan/modes/profiling_mode.py:54-56 | The driver receives shutdown |
| ScanManager.StepsUntilDone | core/scan/controller/scan_manager.py:31-40 | The position of the first done, or None exactly when every status is running |
| ScanManager.TraceStatuses | core/scan/modes/stm_mode.py:65-69 | A step reports done exactly at the positions where the cursor cannot advance |
| ScanManager.TraceRunsToDone | core/scan/controller/scan_manager.py:31-40 | On a linked trace ending in done, the loop performs every step and exits finished |
| ScanManager.FullScanTakesAllSteps | core/scan/controller/scan_manager.py:31-40 | Driving a full n × n scan, the loop performs exactly n² steps and ends on the done |
| ScanManager.StepsUntilDoneFirst | core/scan/controller/scan_manager.py:37-40 | Where the loop stopped is the first done, or the end of the results when there is none |
| ScanManager.ScanManager.constructor | core/scan/controller/scan_manager.py:7-18 | Not running, not paused, no worker |
| ScanManager.ScanManager.StartScan | core/scan/controller/scan_manager.py:20-29 | Nothing while a worker is alive; otherwise running, not paused, worker started |
| ScanManager.ScanManager.RunScanLoop | core/scan/controller/scan_manager.py:31-40 | No step while paused, exit when not running, exit right after done; the flags are left as they were, so is_running stays true after done |
| ScanManager.ScanManager.PauseScan | core/scan/controller/scan_manager.py:42-47 | A no-op unless running; then paused |
| ScanManager.ScanManager.ResumeScan | core/scan/controller/scan_manager.py:49-54 | A no-op unless running; then not paused |
| ScanManager.ScanManager.StopScan | core/scan/controller/scan_manager.py:56-59 | Clears both flags from any state |
| ScanManager.ScanManager.IsRunning | core/scan/controller/scan_manager.py:61-62 | Reports the running flag |
| ScanManager.ScanManager.IsPaused | core/scan/controller/scan_manager.py:64-65 | Reports the paused flag |
| ScanZDriver.ScanZDriver.Initialize | core/scan/modes/stm_mode.py:52 | Records one initialize call |
| ScanZDriver.ScanZDriver.SetZPosition | core/scan/modes/stm_mode.py:57 | Records one set_z_position(z) call |
| ScanZDriver.ScanZDriver.Shutdown | core/scan/modes/stm_mode.py:73 | Records one shutdown call |
| ArrayModel.Linspace | simulation/scan_pattern_simulator.py:33-34 | numpy.linspace: ValueError iff num is negative; otherwise num values, the first start and, for num ≥ 2, the last stop |
| ArrayModel.LinspaceSpacing | simulation/scan_pattern_simulator.py:33-34 | Consecutive values differ by (stop − start)/(num − 1) |
| ArrayModel.FlattenSnoc | simulation/scan_pattern_simulator.py:42 | Extending by a row appends that row's elements |
| ArrayModel.FlattenLength | simulation/scan_pattern_simulator.py:37-42 | Rows of equal width w flatten to rows·w elements |
| ArrayModel.FlattenIndex | simulation/scan_pattern_simulator.py:37-42 | Element j of row i sits at i·w + j of the flattening |
| ScanPatternSimulator.RasterShape | simulation/scan_pattern_simulator.py:33-44 | The raster has resolution² points; point i·res + j lies on row y_vals[i], at x_vals[j] on even rows and x_vals[res−1−j] on odd rows |
| ScanPatternSimulator.RasterSpec | simulation/scan_pattern_simulator.py:28-44 | The raster fails, with ValueError from linspace, exactly for a negative resolution; otherwise it has resolution² points |
| ScanPatternSimulator.RasterRowEnds | simulation/scan_pattern_simulator.py:37-41 | Serpentine: even rows run from x = 0 to scan_size, odd rows back; the first row is at y = 0 and the last at y = scan_size |
| ScanPatternSimulator.SpiralSpec | simulation/scan_pattern_simulator.py:46-56 | The spiral never fails, since resolution ** 2 is never negative, and has resolution² points |
| ScanPatternSimulator.SpiralStartsAtCentre | simulation/scan_pattern_simulator.py:51-55 | For a non-zero resolution the first spiral point is the centre (scan_size/2, scan_size/2) |
| ScanPatternSimulator.LineProfile | simulation/scan_pattern_simulator.py:58-70 | Fails, with ValueError, exactly for a negative resolution; otherwise resolution points whose fixed coordinate (y for axis "x", x for any other axis) is scan_size/2 |
| ScanPatternSimulator.LineProfileShape | simulation/scan_pattern_simulator.py:58-70 | profile_x has resolution points at y = scan_size/2 with x from 0 to scan_size; profile_y is the same line with coordinates swapped |
| ScanPatternSimulator.OtherAxisIsY | simulation/scan_pattern_simulator.py:66-68 | Any axis other than "x" gives the y profile |
| ScanPatternSimulator.PatternSpec | simulation/scan_pattern_simulator.py:16-26 | Fails exactly for an unknown mode, or for a negative resolution in any mode but spiral, and the error is ValueError |
| ScanPatternSimulator.DispatchIgnoresCase | simulation/scan_pattern_simulator.py:14 | Two mode names of equal length whose letters agree position by position up to case select the same pattern |
| ScanPatternSimulator.UpperCaseRaster | simulation/scan_pattern_simulator.py:14-18 | The upper-case name "RASTER" selects the raster |
| ScanPatternSimulator.MixedCaseProfile | simulation/scan_pattern_simulator.py:14-22 | The mixed-case name "Profile_X" selects the x profile |
| ScanPatternSimulator.ScanPatternSimulator.constructor | simulation/scan_pattern_simulator.py:11-14 | Stores size and resolution and the lower-cased mode |
| ScanPatternSimulator.ScanPatternSimulator.RasterPattern | simulation/scan_pattern_simulator.py:28-44 | The extend loop builds exactly the flattened serpentine rows of the two linspace axes |
| ScanPatternSimulator.ScanPatternSimulator.GeneratePattern | simulation/scan_pattern_simulator.py:16-26 | Returns the pattern of the stored mode, or ValueError |
| ScanSimulator.Geometry | simulation/scan_simulator.py:18-19 | Succeeds iff resolution ≥ 1 (0 raises ZeroDivisionError, a negative value ValueError from linspace); dx·resolution = width and dy·resolution = height |
| ScanSimulator.Surface | simulation/scan_simulator.py:27-47 | A resolution × resolution grid indexed [y][x] whose cells, for the four known profiles, are the profile's value at that cell |
| ScanSimulator.NewTipAsWritten | simulation/virtual_tip.py:12 | VirtualTip(keyword=…) raises TypeError exactly for a keyword other than mode |
| ScanSimulator.TipCallAsWritten | simulation/virtual_tip.py:12-51 | A call on a VirtualTip raises AttributeError exactly for a name other than set_surface, _random_surface_lookup and get_height |
| ScanSimulator.ScanSimulatorTipFails | simulation/scan_simulator.py:22-63 | As written, VirtualTip(surface=…) raises TypeError and tip.measure raises AttributeError |
| ScanSimulator.UnknownModeIsFlat | simulation/scan_simulator.py:44-45 | An unknown profile name, including a known one in other case, gives an all-zero resolution × resolution surface |
| ScanSimulator.VisitInGrid | simulation/scan_simulator.py:61-62 | The k-th visit is to a cell inside the grid with row-major index k, so each cell is visited once |
| ScanSimulator.CellVisitedAt | simulation/scan_simulator.py:61-69 | Cell (iy, ix) is visit iy·n + ix and is reported as (ix, iy, z) |
| ScanSimulator.FeedbackCarriesOver | simulation/scan_simulator.py:63-64 | The z of each visit is one feedback update, with that cell's reading, of the state the previous visit left |
| ScanSimulator.ScanSimulator.constructor | simulation/scan_simulator.py:14-25 | dx, dy from Geometry, the profile's surface, a feedback simulator with setpoint 0 and a zero resolution × resolution array |
| ScanSimulator.ScanSimulator.Reset | simulation/scan_simulator.py:49-55 | A fresh all-zero array and the feedback state cleared, gains and setpoint kept |
| ScanSimulator.ScanSimulator.RunScan | simulation/scan_simulator.py:57-71 | One feedback update per cell in row-major order; cell [iy, ix] holds the feedback's result for that cell, the feedback ends at the run over all readings, and the callback calls are the visits in order |
| SurfaceModelSimulator.Meshgrid | simulation/surface_model_simulator.py:25 | numpy.meshgrid arrays have one row per y value and one column per x value |
| SurfaceModelSimulator.Clip | simulation/surface_model_simulator.py:52-53 | numpy.clip: within [lo, hi] when lo ≤ hi, unchanged inside, hi when lo > hi |
| SurfaceModelSimulator.GenerateWith | simulation/surface_model_simulator.py:18-45 | Succeeds exactly for a non-negative size and a known model name, else ValueError; the corrected surface, and every model but random as written, has size[1] rows of size[0] cells, while the random model as written has size[0] rows of size[1] cells |
| SurfaceModelSimulator.NewSurfaceModel | simulation/surface_model_simulator.py:11-16 | Stores the lower-cased model name, the size, amplitude and frequency, and a surface of size[1] rows of size[0] cells, using the corrected random shape |
| SurfaceModelSimulator.NewSurfaceModelAsWritten | simulation/surface_model_simulator.py:11-16 | The constructor as written: the same stored fields, and the random surface with size[0] rows of size[1] cells |
| SurfaceModelSimulator.GetHeight | simulation/surface_model_simulator.py:47-54 | Any failure is IndexError; when the clipped indexes lie inside the surface the result is the cell [clip(y), clip(x)] |
| SurfaceModelSimulator.ConstructionErrors | simulation/surface_model_simulator.py:11-45 | Construction fails, with ValueError, exactly for a negative size or an unknown lower-cased model name; the stored name is lower-cased |
| SurfaceModelSimulator.SurfaceShape | simulation/surface_model_simulator.py:23-31 | Every constructed surface has size[1] rows of size[0] cells |
| SurfaceModelSimulator.RandomShapeAsWritten | simulation/surface_model_simulator.py:30-31 | As written the random surface has size[0] rows of size[1] cells |
| SurfaceModelSimulator.ClampedLookupInBounds | simulation/surface_model_simulator.py:47-54 | On a surface of the right shape every lookup succeeds and reads the cell at the clipped indexes |
| SurfaceModelSimulator.LookupAlwaysSucceeds | simulation/surface_model_simulator.py:47-54 | Every model constructed with a non-empty size answers every lookup |
| SurfaceModelSimulator.RandomLookupOutOfRange | simulation/surface_model_simulator.py:30-31 | As written, size (2, 3) and get_height(0, 2) raise IndexError |
| SurfaceModelSimulator.StepIsTwoValued | simulation/surface_model_simulator.py:33-34 | The step model takes only the values 0 and amplitude |
| LivePlotArea.Newest | interface/layout/live_plot_area.py:107-110 | The newest k elements, at most k and at most all |
| LivePlotArea.PushIsWindow | interface/layout/live_plot_area.py:103-110 | One update of a buffer within the bound keeps the newest 150 values with the new one last |
| LivePlotArea.FeedIsWindow | interface/layout/live_plot_area.py:103-110 | After any sequence of updates a buffer holds exactly the newest 150 values seen, oldest first |
| LivePlotArea.LivePlotArea.constructor | interface/layout/live_plot_area.py:79-89 | Three empty buffers |
| LivePlotArea.LivePlotArea.UpdateData | interface/layout/live_plot_area.py:98-110 | Each value is appended to its own buffer, and all three drop their oldest entry when the z buffer exceeds 150; equal lengths of at most 150 are preserved |

## Left out

- A readline failure is modelled as a device that goes away after its last reply, so the next
  read raises; a readline that raises while replies are still queued is not modelled.
- Serial I/O details: timeouts and `time.time()`, `sleep`, UTF-8/ASCII encoding, `flush` and the
  buffer resets in connect. The port is a finite queue of incoming lines, and an exhausted queue
  stands for the timeout.
- Python's float rendering in G-code words (`f"X{x}"`) is a parameter, a number-to-text function
  whose results are non-empty and whitespace-free.
- Python floats: all arithmetic is exact `real`. In particular the cursor comparisons in the scan
  modes are exact, so the n² sample count holds in the model while float rounding can change it
  in the program.
- `round(x, 4)` is exact round-half-even over reals. The binary representation Python rounds is
  not modelled.
- numpy's sin, cos, exp and random generators, and the surface generators of the scan modes and
  the scan simulator, are uninterpreted function parameters. `ScanModes` receives the generated
  array in `initialize`.
- `VirtualTip`'s surface functions and noise are not part of this model; only its constructor
  parameters and method names are (`TipParameters`, `TipMethods`). The scan simulator's tip is a
  reading function of (ix, iy).
- ScanSimulator.ScanSimulator.constructor and ScanSimulator.ScanSimulator.Reset: as written both
  raise TypeError at `VirtualTip(surface=...)`; the model describes a working tip instead (see
  Findings).
- ScanSimulator.ScanSimulator.RunScan: as written the first `tip.measure(ix, iy)` raises
  AttributeError; the model describes a tip that answers a reading (see Findings).
- `str.lower()` is modelled for ASCII letters only.
- Threads: the scan manager's worker runs sequentially over the statuses perform_step returns, and
  `is_alive()` is a boolean. A paused loop exits as Suspended instead of spinning.
- The abstract `MotionBackend` class becomes predicates that the G-code backend is proved to
  satisfy, because a trait is not used here. The base scan mode's abstract methods are not
  separate members.
- `ArduinoZDriver` is raw serial and is only named by the factory.
- Config values are int, float, string or None. A bool config value (a Python int) and other
  types are not modelled.
- A Python value that is not an int passed as a resolution to the pattern, scan or surface
  simulators is not modelled; those take an `int` parameter.
- The constructors of the scan modes and of the scan simulator require their settings function
  (`StmSettings`, `ContactSettings`, `NonContactSettings`, `ProfilingSettings`, `Geometry`) to
  succeed. The failing cases are stated by those functions.
- ScanPatternSimulator.SpiralSpec and ScanPatternSimulator.SpiralStartsAtCentre: only the count
  and the centre start are proved. The spiral coordinates depend on cos and sin, which are
  uninterpreted.
- Exceptions raised by a scan step inside the worker thread are not modelled.
- The plotting and status-label calls in `update_data` are Qt widgets and are not modelled.

## Findings

| source | as written | input that shows it | evidently intended | confidence | as-written member | corrected member |
|---|---|---|---|---|---|---|
| core/scan/modes/stm_mode.py:17,52,57,73 | The scan modes get their driver from `get_z_driver(hardware_mode)`, which returns a SimulatedZDriver with only move_to, get_position and close, and then call initialize, set_z_position and shutdown on it | any scan mode: `initialize()` raises AttributeError | a driver offering initialize, set_z_position and shutdown | high (not executed) | ZInterface.ScanModeDriverCallsFail | ScanZDriver.ScanZDriver.Initialize |
| simulation/scan_simulator.py:22,63 | The constructor and reset() build `VirtualTip(surface=self.surface)`, but VirtualTip takes only `mode`; run_scan calls `tip.measure(ix, iy)`, which VirtualTip does not define | `ScanSimulator()`: TypeError; `run_scan()` on any simulator: AttributeError | a tip built over the generated surface whose measure(ix, iy) returns that cell's height | high (not executed) | ScanSimulator.ScanSimulatorTipFails | ScanSimulator.ScanSimulator.RunScan |
| simulation/surface_model_simulator.py:30-31 | The random model is `rand(*size)`, shape (size[0], size[1]), while get_height indexes [y, x] with y clipped to size[1] − 1 | size (2, 3), `get_height(0, 2)`: row 2 of a 2-row array raises IndexError | shape (size[1], size[0]), as the meshgrid models have | high (not executed) | SurfaceModelSimulator.RandomLookupOutOfRange | SurfaceModelSimulator.LookupAlwaysSucceeds |
