# Pneumatic heart control firmware — a verified model of its core

The firmware drives a pneumatic artificial heart on an STM32 under FreeRTOS.
It runs three tasks:

- A **pacemaker** (`HeartbeatTask`) offers a systole command and then a
  diastole command to a control queue, forever. It sleeps 300 ms after the
  first and 700 ms after the second.
- An **actuator sequencer** (`ControlTask`) turns each command it receives
  into a pressure-regulator setpoint. It then closes the opposite solenoid
  valve and opens the commanded one.
- A **sampler** (`SensorTask`) runs every 10 ms. It reads the regulator's
  feedback pressure and decides from it whether the heart is in systole. It
  counts the ticks spent in the current phase, synthesises aortic and
  pulmonary pressure waveforms from the phase progress, and offers a
  telemetry packet to a logging queue.

Beneath the tasks sit two layers:

- The proportional **pressure-regulator driver**. It converts bar to volts
  and back through the regulator's linear calibration.
- The STM32 **peripheral wrappers**: ADC input, DAC output, GPIO output
  and solenoid valve.

The model has one Dafny module per part of the program:

| file | module | models |
|---|---|---|
| `common_types.dfy` | `CommonTypes` | status codes, commands, the telemetry packet, `uint32_t` wrap-around |
| `rtos_queue.dfy` | `Rtos` | a CMSIS-RTOS2 message queue used with timeout 0: a bounded FIFO whose put is refused when the queue is full |
| `peripherals.dfy` | `Peripherals` | the four wrapper classes |
| `regulator.dfy` | `Regulator` | the pressure-regulator driver |
| `control_task.dfy` | `Control` | the actuator sequencer |
| `sensor_task.dfy` | `Sampler` | the sampler loop |
| `heartbeat_task.dfy` | `Heartbeat` | the pacemaker loop |
| `real_arith.dfy` | `RealArith` | facts about products and quotients of reals that the other proofs use |

Objects whose fields the firmware updates are Dafny classes whose methods
change those fields. The effects on hardware are recorded in `seq` fields:
DAC codes written, GPIO levels driven, calls made on the regulator and
valves, and sends and sleeps. The infinite task loops become a method for
one iteration plus a method that runs a finite sequence of iterations.
Each such method is proved against a specification function, and the
properties the firmware relies on are proved about those functions as
lemmas.

Where the firmware's design description and the code disagree, the model
follows the code:

- The actuator sequencer calls the driver's `bool setPressure(float)` and
  discards the result. It never checks a pressure ceiling, never reports
  `ERROR_OUT_OF_RANGE` and never enters a safe state. The model does the
  same.
- The sampler calls `getActualPressure_Bar(float&)` and ignores its
  status. It uses whatever value was written, else the 0.0 it started
  from. The model takes the written value as an `Option<real>`.
- The pacemaker's durations are the class constants 300 ms and 700 ms,
  not the global configuration record.

## Model

| member | source | states |
|---|---|---|
| CommonTypes.WrapU32 | App/Src/Tasks/sensor_task.cpp:76-78 | `uint32_t` wrap-around: in-range values are unchanged, and the result is congruent to the input modulo 2^32 |
| Rtos.MessageQueue.TryPut | App/Src/Tasks/heartbeat_task.cpp:74 | non-blocking put: the status is `osOK` exactly when there was room, and the message is then appended at the tail; otherwise the status is `osErrorResource` and the queue is unchanged |
| Rtos.OfferAppend | App/Src/Tasks/heartbeat_task.cpp:74-85 | offering messages all at once or in two batches leaves the same queue |
| Rtos.OfferKeepsPrefix | App/Src/Tasks/sensor_task.cpp:132 | drop-on-full over many puts: exactly the longest prefix of the offered messages that fits is appended, and the queue never exceeds its capacity |
| Peripherals.AdcVoltage | Hardware/Src/Peripherals.cpp:76-80 | raw / 4095 * 3.3 * multiplier: lies in [0, 3.3 * multiplier] for a 12-bit reading and a non-negative multiplier; raw 0 gives 0 V and raw 4095 gives full scale |
| Peripherals.AnalogIn.constructor | Hardware/Src/Peripherals.cpp:22-27 | stores the handle and the multiplier, which defaults to 1.0 |
| Peripherals.AnalogIn.Init | Hardware/Src/Peripherals.cpp:33-41 | `OK` exactly when the handle is present, else `ERROR_NULL_PTR` |
| Peripherals.AnalogIn.ReadVoltage | Hardware/Src/Peripherals.cpp:48-82 | null handle gives `ERROR_NULL_PTR`, a failed start gives `ERROR_HAL`, a failed poll gives `ERROR_TIMEOUT`, in that order of precedence; `OK` exactly when all succeed, and only then is the out-parameter overwritten, with the scaled voltage |
| Peripherals.SaturatedDacVolts | Hardware/Src/Peripherals.cpp:144-148 | the divided voltage saturated to [0, 3.3]: unchanged inside the range, 0 below it, 3.3 above it |
| Peripherals.DacCode | Hardware/Src/Peripherals.cpp:151 | the truncating cast: the largest code not above volts / 3.3 * 4095, at most 4095; 0 V gives 0 and 3.3 V gives 4095 |
| Peripherals.DacCodeMonotone | Hardware/Src/Peripherals.cpp:142-151 | for a positive divider, a higher requested voltage never yields a lower DAC code |
| Peripherals.DacAdcLoopback | Hardware/Src/Peripherals.cpp:150-151 | reading back the code written for v (unit multiplier) gives a voltage at most v and less than one code step below it |
| Peripherals.AnalogOut.constructor | Hardware/Src/Peripherals.cpp:93-99 | stores handle and divider, which defaults to 1.0; nothing written yet |
| Peripherals.AnalogOut.Init | Hardware/Src/Peripherals.cpp:115-129 | `ERROR_NULL_PTR` without a handle, `ERROR_HAL` when the start fails, `OK` exactly when both succeed |
| Peripherals.AnalogOut.SetVoltage | Hardware/Src/Peripherals.cpp:135-162 | null handle: `ERROR_NULL_PTR` and nothing written; otherwise exactly one code, the quantised saturated voltage (at most 4095), is written, and the status is `OK` exactly when the HAL accepted it, else `ERROR_HAL` |
| Peripherals.LevelOf | Hardware/Src/Peripherals.cpp:202-209 | `true` is the high level and `false` the low one |
| Peripherals.DigitalOut.constructor | Hardware/Src/Peripherals.cpp:174-183 | drives the initial state, which defaults to RESET, exactly when the port is present |
| Peripherals.DigitalOut.Init | Hardware/Src/Peripherals.cpp:188-196 | `OK` exactly when the port is present, else `ERROR_NULL_PTR` |
| Peripherals.DigitalOut.Write | Hardware/Src/Peripherals.cpp:202-209 | drives the level of the boolean, and nothing without a port |
| Peripherals.DigitalOut.SetHigh | Hardware/Src/Peripherals.cpp:214-220 | drives SET, and nothing without a port |
| Peripherals.DigitalOut.SetLow | Hardware/Src/Peripherals.cpp:225-231 | drives RESET, and nothing without a port |
| Peripherals.ActiveLevel | Hardware/Src/Peripherals.cpp:271-272 | the energising level is RESET exactly for an active-low coil |
| Peripherals.InactiveLevel | Hardware/Src/Peripherals.cpp:282-283 | the de-energising level is always the other level |
| Peripherals.Solenoid.constructor | Hardware/Src/Peripherals.cpp:250-255 | stores port presence and polarity; drives nothing |
| Peripherals.Solenoid.Init | Hardware/Src/Peripherals.cpp:258-265 | a present valve is closed (one de-energising write) and `OK` returned; otherwise `ERROR_NULL_PTR` and nothing written |
| Peripherals.Solenoid.Activate | Hardware/Src/Peripherals.cpp:268-276 | one write of the energising level, leaving the valve energised; `ERROR_NULL_PTR` and nothing written without a port |
| Peripherals.Solenoid.Deactivate | Hardware/Src/Peripherals.cpp:279-287 | one write of the de-energising level, leaving the valve not energised; `ERROR_NULL_PTR` and nothing written without a port |
| Regulator.SetpointVolts | Hardware/Src/PressureRegulatorDriver.cpp:32-39 | the calibration (bar - 0.02) * 5 + 0.1 is exactly 5 V per bar; 0 bar is 0 V |
| Regulator.CalibratedBar | Hardware/Src/PressureRegulatorDriver.cpp:72 | (V - 0.1) * 0.2 + 0.02 is V / 5, negative exactly for negative V |
| Regulator.ReportedBar | Hardware/Src/PressureRegulatorDriver.cpp:72-76 | the reported pressure is never negative: V / 5 for V >= 0, else 0 |
| Regulator.CalibrationInverse | Hardware/Src/PressureRegulatorDriver.cpp:33-37 | the forward and reverse calibration formulas are inverse to each other, in both directions |
| Regulator.RoundTrip | Hardware/Src/PressureRegulatorDriver.cpp:30-78 | reading back the voltage set for a target reports the target when it is non-negative and 0 otherwise |
| Regulator.PressureRegulatorDriver.constructor | Hardware/Src/PressureRegulatorDriver.cpp:15-22 | construction commands 0 bar: exactly one setpoint, 0 V, is written |
| Regulator.PressureRegulatorDriver.SetPressure | Hardware/Src/PressureRegulatorDriver.cpp:30-47 | writes exactly one setpoint, 5 * bar volts, and returns true exactly when the setpoint pin reported `OK` |
| Regulator.PressureRegulatorDriver.GetActualPressure | Hardware/Src/PressureRegulatorDriver.cpp:54-79 | never negative; 0 when the read fails; otherwise the calibrated, clamped reading, which is V / 5 for a non-negative voltage |
| Control.OpenFor | App/Src/Tasks/control_task.cpp:78-111 | the valve state a command aims at has exactly the commanded valve open, and is interlocked |
| Control.CommandOpensCommanded | App/Src/Tasks/control_task.cpp:80-111 | whatever the valves were, the three calls of a command leave exactly the commanded valve open |
| Control.CommandIdempotent | App/Src/Tasks/control_task.cpp:78-111 | handling the same command twice leaves the valves as handling it once |
| Control.CommandInterlock | App/Src/Tasks/control_task.cpp:88-108 | the opposite valve is closed before the commanded one opens, so no intermediate state of a command has both valves open |
| Control.RunInterlock | App/Src/Tasks/control_task.cpp:70-114 | over any stream of queue results, including failed gets and repeated commands, no intermediate valve state has both valves open |
| Control.LastOk | App/Src/Tasks/control_task.cpp:73-75 | the index of the last iteration whose get returned `osOK`: that iteration succeeded and every later one failed, or -1 when none succeeded |
| Control.RunEndsOnLastCommand | App/Src/Tasks/control_task.cpp:70-114 | after any stream with at least one successful get, including one that ends in failed gets, the valves are those of the last command received with `osOK` |
| Control.RegulatorResultIgnored | App/Src/Tasks/control_task.cpp:86-108 | the valve calls of an iteration are the same whatever `setPressure` returned |
| Control.ControlTask.constructor | App/Src/Tasks/control_task.cpp:16-26 | construction makes no hardware call |
| Control.ControlTask.RequestPressure | App/Src/Tasks/control_task.cpp:86 | one `setPressure` call; the valves are unchanged |
| Control.ControlTask.DeactivateValve | App/Src/Tasks/control_task.cpp:89 | one `deactivate` call, closing that valve |
| Control.ControlTask.ActivateValve | App/Src/Tasks/control_task.cpp:92 | one `activate` call, opening that valve |
| Control.ControlTask.HandleCommand | App/Src/Tasks/control_task.cpp:73-112 | nothing happens unless the get returned `osOK`; otherwise the command's setpoint, close and open calls are made in that order, exactly the commanded valve ends open, and the interlock is preserved |
| Control.ControlTask.Run | App/Src/Tasks/control_task.cpp:65-115 | the calls are the concatenation of the per-iteration calls, the valves are their effect, and the interlock is preserved |
| Sampler.Classify | App/Src/Tasks/sensor_task.cpp:90 | systole exactly when the reading exceeds 0.6 bar |
| Sampler.DeadlineClosedForm | App/Src/Tasks/sensor_task.cpp:76 | the deadline after n periods is the start plus 10 * n ms, modulo 2^32 |
| Sampler.TicksCountSamePhase | App/Src/Tasks/sensor_task.cpp:78-96 | readings that keep the phase only advance the tick count, by one each (modulo 2^32) |
| Sampler.TicksSincePhaseEntry | App/Src/Tasks/sensor_task.cpp:78-96 | after a phase change, the tick count is the number of samples taken since, and the phase is the new one |
| Sampler.PhaseTicks | App/Src/Tasks/sensor_task.cpp:71-72 | the nominal phase length is positive: 30 ticks of systole, 70 of diastole |
| Sampler.Progress | App/Src/Tasks/sensor_task.cpp:105-106 | progress lies in [0, 1], is ticks / length before the end of the nominal phase, and is 1 at and after it |
| Sampler.ProgressMonotone | App/Src/Tasks/sensor_task.cpp:99-120 | progress never decreases as ticks accumulate |
| Sampler.Jitter | App/Src/Tasks/sensor_task.cpp:100 | the jitter lies in [-0.5, 0.49] and is -0.5 exactly when rand() % 100 is 0 |
| Sampler.AorticPressure | App/Src/Tasks/sensor_task.cpp:112 | for a curve in [0, 1], between 80 and 120 mmHg plus jitter, reaching each end at curve 0 and 1 |
| Sampler.PulmonaryPressure | App/Src/Tasks/sensor_task.cpp:114 | for a curve in [0, 1], between 10 and 25 mmHg plus jitter, reaching each end at curve 0 and 1 |
| Sampler.Packet | App/Src/Tasks/sensor_task.cpp:80-129 | the packet carries the tick timestamp and the reading, and for a curve in [0, 1] both pressures lie in their bands |
| Sampler.SystoleAorticRises | App/Src/Tasks/sensor_task.cpp:102-115 | in systole, for a non-decreasing rise curve, the aortic pressure without jitter rises with the ticks |
| Sampler.DiastoleAorticFalls | App/Src/Tasks/sensor_task.cpp:116-129 | in diastole, for a non-increasing decay curve, the aortic pressure without jitter falls with the ticks |
| Sampler.PacketsFollowTracker | App/Src/Tasks/sensor_task.cpp:74-133 | the k-th packet of a run carries the k-th timestamp and reading, and its waveform is that of the tracker after the first k + 1 readings |
| Sampler.RunFromSummary | App/Src/Tasks/sensor_task.cpp:74-133 | iterating the loop ends one period per iteration after the start, with the tracker of all readings, and with the queue that offering all packets in order produces |
| Sampler.SensorLoop.constructor | App/Src/Tasks/sensor_task.cpp:62-68 | entry to the loop: zeroed packet, deadline at the start tick, diastole with no ticks |
| Sampler.SensorLoop.Step | App/Src/Tasks/sensor_task.cpp:74-133 | one iteration: the deadline advances by 10 ms (wrapping); the phase is systole exactly when the reading exceeds 0.6 bar; the tick count restarts at 0 on a phase change and otherwise advances by one; the packet is built from the new tracker and offered once, dropped when the queue is full |
| Sampler.SensorLoop.Run | App/Src/Tasks/sensor_task.cpp:74-133 | a run of iterations: the deadline, the tracker and the queue are those of the reference fold over the readings and packets |
| Heartbeat.CommandAt | App/Src/Tasks/heartbeat_task.cpp:72-85 | the reference stream: the k-th command is systole exactly for even k |
| Heartbeat.DelayAfter | App/Inc/Tasks/heartbeat_task.h:46-47 | a systole command is followed by 300 ms and a diastole command by 700 ms, and by nothing else |
| Heartbeat.ScheduleShape | App/Src/Tasks/heartbeat_task.cpp:68-90 | the task strictly alternates a send and a sleep; the k-th send is the k-th command of the reference stream and is followed by that command's delay; the first event is a systole command |
| Heartbeat.SendsAlternate | App/Src/Tasks/heartbeat_task.cpp:72-85 | the offered commands are exactly the reference stream |
| Heartbeat.ScheduleSleepsOneSecondPerBeat | App/Src/Tasks/heartbeat_task.cpp:76-89 | n iterations sleep n * 1000 ms in total |
| Heartbeat.QueueReceivesStreamPrefix | App/Src/Tasks/heartbeat_task.cpp:74-85 | with no consumer, the queue keeps its contents and receives the commands in stream order until full; every later one is dropped |
| Heartbeat.HeartbeatTask.constructor | App/Src/Tasks/heartbeat_task.cpp:18-22 | stores the queue; nothing sent |
| Heartbeat.HeartbeatTask.Beat | App/Src/Tasks/heartbeat_task.cpp:70-89 | one iteration: systole offered, 300 ms slept, diastole offered, 700 ms slept; the queue is as after offering both |
| Heartbeat.HeartbeatTask.Run | App/Src/Tasks/heartbeat_task.cpp:63-91 | n iterations: the events are the schedule of n beats and the queue is as after offering the first 2n commands of the stream |

## Left out

- Task creation is not modelled: `start()`, the `taskLauncher` trampolines, `osThreadNew` with its priorities and stack sizes, and `osKernelGetTickCount`. The tick read for the timestamp is a parameter.
- Real time is not modelled. A sleep is recorded with its length, `osDelayUntil` is modelled only through the deadline it is given, and queue waits are not timed.
- The interleaving of the three tasks is not modelled. Each queue is a sequential FIFO, and the actuator sequencer is driven by a given stream of queue results.
- `sin`, `cos` and `rand()` are parameters: `rise` and `decay` are functions on the phase progress, and `r` is a natural number. The waveform properties hold for every such function; properties that need them to be monotone assume it in a precondition.
- Arithmetic is exact (`real`). Single-precision rounding is not modelled. `Regulator.SetpointVolts` states V = 5 * bar exactly, which `float` evaluation satisfies only up to rounding.
- HAL calls are reduced to the statuses they return, which are parameters. Pin and DAC writes are recorded. `HAL_ADC_Stop` and the ADC start and poll are not recorded.
- `STM32_DigitalOut::toggle` is not modelled, because it needs the current pin level, which the HAL owns.
- The `STM32_AnalogOut` destructor, which stops the DAC, is not modelled.
- A zero DAC divider ratio is excluded by its type, because the division by it is undefined in the source.
- The sampler's aortic and pulmonary sensor pointers are stored but never used, so they are not modelled. The `srand` seeding belongs to the unmodelled `rand()`.
- The abstract interfaces (`PressureControl`, `IPressureControl` and the other headers) are not modelled. In the source, the regulator driver implements `setPressure`/`getActualPressure`, while the sampler calls `getActualPressure_Bar`; the model takes the value that call writes as a parameter.
- The global configuration record `g_systemConfig` is not read by any modelled code and is not part of this model.
- In the actuator sequencer, the valve state is the effect of the `activate` and `deactivate` calls the task makes. The task ignores the `PeriphStatus` those calls return. For the STM32 solenoid the only failure is a missing port, which writes nothing, so for a wired valve the call's effect is the physical state. The model does not connect the task's valve booleans to `Peripherals.Solenoid.Energised`.
- The safe state and the pressure ceiling described for the system are not implemented in these files, so they are not modelled.
- Sampler.SensorLoop.Run: the deadline is stated as the recursive `Deadline`, whose closed form (start + 10 * n modulo 2^32) is `Sampler.DeadlineClosedForm`.
