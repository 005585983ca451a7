# Insulin pump controller — a verified Dafny model

This project models the controller of a simulated insulin/glucagon pump. The
controller has three parts:

- the **pump** (`Pump.cpp`): one control cycle reads the blood sugar level,
  decides between insulin and glucagon, takes the dose from a reservoir and
  sends it to the body. It also looks after the battery and the reservoir
  fill levels;
- the **scheduler** (`Scheduler.cpp`): it triggers the pump and accumulates
  the total operation time, which it persists in a settings file;
- the **control system** (`ControlSystem.cpp`): health checks over the
  operation time, the battery level and the scheduler's status. A failed
  check raises an alarm.

Everything is reported to the **tracer**. Here the tracer is an append-only
ghost log of events: a log entry at its level (status, warning, critical),
a beep, or a vibration.

Files and modules:

| file | module | contents |
|---|---|---|
| `cint.dfy` | `CInt` | C integer semantics: truncating division, the 32-bit `int` range and wrap-around, `EXIT_FAILURE` |
| `decimal.dfy` | `Decimal` | decimal text of integers (C++ streams, `QString::number`) and the value of a digit string |
| `tracer.dfy` | `Tracing` | the messages, their exact wording, and the `Tracer` class with its event log |
| `protocol.dfy` | `Protocol` | the pump→body message encoder, the intended four-digit format (two insulin digits, then two glucagon digits), and the sensor parse (`getline` + `atoi`) |
| `dosing.dfy` | `Dosing` | the configuration record, the pump state as a value, and pure specification functions for every pump step and for a whole cycle, with lemmas |
| `pump.dfy` | `PumpUnit` | `class Pump`: fields updated in place, each method proved equal to its `Dosing` function |
| `scheduler.dfy` | `Scheduling` | `class Scheduler`: the timer, the millisecond total and the settings store, with lemmas about repeated reads of the total |
| `health.dfy` | `Health` | the health-check decisions as functions with lemmas, and `class ControlSystem` |

Modelling conventions:

- **Sensor.** The sensor file is read by `Protocol.ReadBloodSugarSensor`. Its
  value is the `reading` parameter of the pump cycle (−1 means no body).
- **Body pipe.** The pipe to the body is the pump field `sentToBody`, the list
  of messages written so far.
- **Timer.** The scheduler's timer is a validity flag plus the clock reading
  at which it was started. The current clock reading `now` is a parameter, so
  `elapsed()` is `now - timerStart`.
- **Settings.** The settings file is a `map<string, int>` keyed
  `"InsulinPump/TotalOperationTime"`.

Where the code and its intended design disagree, the model follows the code:

- **Strict comparisons.** The dosing comparisons are strict.
- **No fault state.** A failed battery drain only logs; the cycle goes on.
- **Partial no-body check.** A −1 reading is detected only on a cycle that
  starts with a non-positive current reading: the first cycle, or any cycle
  after a reading of 0 or below, an undetected −1 included. After a positive
  reading a −1 is dosed as a glucose level, and a second −1 in a row is
  detected.
- **No dose cap.** The dose encoder has no 99-unit cap.
- **Dose rounds down.** The dose is the truncated quotient: the `ceil` is
  applied after integer division.
- **Reading kept on failure.** On the "no body" path the current reading
  becomes −1. The battery has already been drained.
- **Double-counted time.** `getOperationTime` adds the time elapsed since the
  timer was *started* on every call, and the timer is never restarted, so
  repeated calls count the same time again
  (`Scheduling.EvenTicksTotal`, `Scheduling.OverCounting`).

## Model

| member | source | states |
|---|---|---|
| CInt.Abs | Pump.cpp:320-331 | the absolute value used on `currentBSLevel - target` is non-negative and equals x or −x |
| CInt.TruncDiv | Pump.cpp:320-331 | C's `/` on int: the magnitude of the quotient is bracketed by the magnitudes of the operands, and the sign is negative exactly when the operand signs differ |
| CInt.WrapInt32 | ControlSystem.cpp:51-69 | returning the qint64 hours as `int` keeps a value within 32 bits, wraps modulo 2^32 otherwise, and always yields an `int` |
| CInt.TruncDivOfNatural | Pump.cpp:320-331 | on a non-negative dividend and a positive divisor, C division is Euclidean division |
| CInt.HoursByStages | Scheduler.cpp:88-96 | `total/60/60/1000` in three truncating steps equals one division by 3,600,000, for negative totals too |
| Tracing.AlertTexts | Pump.cpp:274-283 | the reservoir-empty text starts with "CRITICAL! " and the nearly-empty text with "Warning! "; texts for different hormones differ |
| Tracing.Text | Pump.cpp:249-316 | the exact wording of each message; specified by `Tracing.AlertTexts` and `Health.AlarmNamesCompiledMaximum` |
| Tracing.Tracer.constructor | Tracer.cpp:25-31 | a new tracer has reported nothing |
| Tracing.Tracer.WriteStatusLog | Tracer.cpp:45-60 | appends exactly one status entry with the message |
| Tracing.Tracer.WriteWarningLog | Tracer.cpp:65-80 | appends exactly one warning entry with the message |
| Tracing.Tracer.WriteCriticalLog | Tracer.cpp:85-100 | appends exactly one critical entry with the message |
| Tracing.Tracer.PlayAcousticWarning | Tracer.cpp:105-109 | appends one beep |
| Tracing.Tracer.VibrationWarning | Tracer.cpp:114-118 | appends one vibration |
| Decimal.DecimalDigits | Pump.cpp:222-245 | the decimal text of a natural is non-empty and all digits |
| Decimal.ValueOfDecimalDigits | Pump.cpp:222-245 | the decimal text of n denotes n |
| Decimal.DecimalDigitsLength | Pump.cpp:222-245 | a number below 10^k has at most k digits; one of at least 10^k has more than k |
| Protocol.TwoDigits | Pump.cpp:226-243 | an amount of 0..99, zero-padded below 10, is exactly two digits denoting the amount |
| Protocol.EncodeDecodeInjection | Pump.cpp:222-245 | every dose of 0..99 units is sent as four digits; the four-digit format reads it back as that dose of the chosen hormone and 0 of the other |
| Protocol.ZeroDoseMessage | Pump.cpp:222-245 | a zero dose is sent as "0000" for either hormone |
| Protocol.LargeDoseBreaksFormat | Pump.cpp:226-243 | a dose of 100 or more is not capped: the message has at least five characters and is not a valid four-digit message |
| Protocol.TakeLine | Pump.cpp:207 | `getline(line, 4)` keeps a prefix of the text with no newline, and stops only at three characters, at the end of the text or at a newline |
| Protocol.SkipSpaces | Pump.cpp:212 | atoi's skip removes exactly the leading white space: every skipped character is white space and the rest does not start with one |
| Protocol.DigitPrefix | Pump.cpp:212 | atoi reads the longest prefix of digits: all digits, followed by a non-digit or the end |
| Protocol.SensorReadingRange | Pump.cpp:197-218 | a reading from an existing file lies in −99..999 |
| Protocol.SensorRoundTrip | Pump.cpp:197-218 | a level 0..999 written alone on the first line is read back exactly |
| Protocol.AtoiOfDigits | Pump.cpp:212 | atoi of a non-empty digit string is the number it denotes |
| Protocol.NonNumericReadsAsZero | Pump.cpp:212 | content that starts with neither a digit, a sign nor white space reads as 0 instead of being rejected |
| Protocol.MinusOneIsIndistinguishable | Pump.cpp:197-218 | a file holding "-1" reads the same as a missing file: −1 |
| Protocol.FourDigitsReadAsThree | Pump.cpp:200-212 | only three characters are read: a file holding "1000" reads as 100 |
| Protocol.EncodeInjection | Pump.cpp:222-245 | the pump→body message; specified by `Protocol.EncodeDecodeInjection`, `Protocol.ZeroDoseMessage` and `Protocol.LargeDoseBreaksFormat` |
| Protocol.Atoi | Pump.cpp:212 | C's atoi; specified by `Protocol.AtoiOfDigits` and `Protocol.NonNumericReadsAsZero` |
| Protocol.ReadBloodSugarSensor | Pump.cpp:197-218 | the sensor read; specified by `Protocol.SensorReadingRange`, `Protocol.SensorRoundTrip`, `Protocol.MinusOneIsIndistinguishable` and `Protocol.FourDigitsReadAsThree` |
| Dosing.DrainBattery | Pump.cpp:180-193 | a drain of 0 < d ≤ level removes exactly d and reports nothing; anything else leaves the level and logs one critical "Power drainage too high!"; the level never rises |
| Dosing.RechargeBattery | Pump.cpp:148-157 | the level becomes the charge only when level ≤ charge ≤ 100 and is unchanged otherwise; the critical message is written in both cases |
| Dosing.DecreaseNeverNegative | Pump.cpp:258-270 | a positive request delivers min(amount, level), lowers the level by exactly that, never below 0, and is truncated exactly when amount > level |
| Dosing.WithReservoir | Pump.cpp:249-316 | setting one reservoir's level leaves the other reservoir, the battery, both readings and both flags unchanged |
| Dosing.LevelAlertThresholds | Pump.cpp:274-283 | at most one alert: "CRITICAL!" exactly at or below the critical level, "Warning!" exactly between the critical and warning levels, nothing above both, never at the critical log level |
| Dosing.CalculateNeededHormone | Pump.cpp:320-331 | for a positive sensitivity factor the dose is the floor of the distance to the target divided by the factor; 0 when current equals target |
| Dosing.DoseRoundsDown | Pump.cpp:320-331 | 11 over a factor of 5 gives 2 units, not 3: the `ceil` has no effect |
| Dosing.DecisionBranches | Pump.cpp:100-139 | insulin exactly on a strict rise above the upper limit, glucagon exactly on a strict fall below the lower limit; the target is the latest reading after an injection, else the target level; otherwise dose 0 and the flag kept |
| Dosing.NoDoseWithoutChange | Pump.cpp:104-122 | equal current and latest readings never prescribe a dose |
| Dosing.PrepareInjectionEffect | Pump.cpp:249-316 | a positive amount lowers only the chosen reservoir by min(amount, level), sets the delay flag, drains one unit, sends the delivered amount and logs critical exactly on truncation; a non-positive amount changes nothing; reservoirs stay in 0..100 |
| Dosing.ShortReservoirExample | Pump.cpp:258-270 | 24 units from an insulin reservoir holding 10: the reservoir empties, "1000" is sent and the truncation is logged as critical |
| Dosing.CycleFailsOnlyWithoutBody | Pump.cpp:73-144 | a cycle fails exactly when it starts with a non-positive current reading and reads −1; then only the battery and the reading change and nothing is sent; otherwise exactly one message is sent |
| Dosing.LaterMissingBodyNotDetected | Pump.cpp:94-98 | a −1 reading after a positive reading is not detected: the cycle succeeds with −1 as the current level |
| Dosing.SecondMinusOneDetected | Pump.cpp:79-98 | a −1 after a positive reading goes unnoticed and becomes the current level, so a second −1 in a row fails the cycle |
| Dosing.NoDoseAfterUndetectedMinusOne | Pump.cpp:79-122 | after an undetected −1, the next positive reading also becomes the latest one, so that cycle doses nothing |
| Dosing.FirstCycleDoesNotDose | Pump.cpp:79-122 | on a cycle that starts with a non-positive current reading, a reading other than −1 also becomes the latest one, so the cycle doses nothing, leaves both reservoirs and sends "0000" |
| Dosing.CycleDelayAndDrain | Pump.cpp:73-144 | after a successful cycle the delay flag is set exactly when a dose was decided; the battery gets a second drain only then, so at most 2 units per cycle; reservoirs stay in 0..100 |
| Dosing.IdleCycleKeepsFlag | Pump.cpp:100-144 | a successful cycle in which neither dosing branch fires keeps the hormone flag and both reservoirs and sends "0000" |
| Dosing.ZeroDoseCycle | Pump.cpp:100-144 | every successful cycle that decides 0 units, whether or not a branch fired, keeps both reservoirs, leaves the delay flag cleared and sends "0000" |
| Dosing.ZeroDoseMayFlipFlag | Pump.cpp:104-115 | a branch can fire with 0 units: with factor 5, upper limit and target 110, a rise from 110 to 112 sets the flag to insulin although nothing is injected |
| Dosing.LaterMinusOneDosesGlucagon | Pump.cpp:94-139 | a −1 reading after a positive one is dosed as a very low level: after 100, with lower limit 70, target 90 and factor 5, the cycle succeeds and selects glucagon, 18 units |
| Dosing.RunCycle | Pump.cpp:73-144 | one runPump cycle as a value; specified by `Dosing.CycleFailsOnlyWithoutBody`, `Dosing.FirstCycleDoesNotDose`, `Dosing.CycleDelayAndDrain` and `Dosing.ZeroDoseCycle` |
| Dosing.Decide | Pump.cpp:100-139 | the dosing decision; specified by `Dosing.DecisionBranches` and `Dosing.NoDoseWithoutChange` |
| Dosing.PrepareInjection | Pump.cpp:249-316 | prepareInjection as a value; specified by `Dosing.PrepareInjectionEffect` |
| Dosing.DrainedLevel | Pump.cpp:180-193 | the level after a drain; specified with `Dosing.DrainEvents` by `Dosing.DrainBattery` |
| Dosing.RechargedLevel | Pump.cpp:148-157 | the level after a recharge; specified with `Dosing.RechargeEvents` by `Dosing.RechargeBattery` |
| Dosing.DecreaseReservoir | Pump.cpp:258-270 | the reservoir step; specified by `Dosing.DecreaseNeverNegative` |
| Dosing.LevelAlert | Pump.cpp:274-283 | the fill-level alert; specified by `Dosing.LevelAlertThresholds` |
| Dosing.HighReadingExample | Pump.cpp:104-115 | factor 5, upper limit 130, target 110, a rise from 110 to 230 without a pending delay selects insulin and 24 units |
| PumpUnit.Pump.constructor | Pump.cpp:38-49 | the seven thresholds are copied from the configuration record |
| PumpUnit.Pump.InitPump | Pump.cpp:59-69 | battery 100, both reservoirs 100, delay and hormone flag false, both readings 0 |
| PumpUnit.Pump.RunPump | Pump.cpp:73-144 | one cycle: result, new state, reported events and sent messages are exactly those of `Dosing.RunCycle`; the reservoirs stay in 0..100 |
| PumpUnit.Pump.StartCycle | Pump.cpp:76-98 | the drain then the reading step: the body is found unless the current reading was not positive and −1 is read, and the state and events are those of the drain followed by the reading |
| PumpUnit.Pump.TakeReading | Pump.cpp:79-98 | the new reading becomes current; latest becomes the previous reading, or the new one when the previous was not positive; in that case −1 logs "No body found!" |
| PumpUnit.Pump.DecideDose | Pump.cpp:100-139 | the hormone flag and the dose are those of `Dosing.Decide` |
| PumpUnit.Pump.DoseAndInject | Pump.cpp:100-144 | decision, delay reset and injection are exactly `Dosing.DoseAndInject` |
| PumpUnit.Pump.DrainBatteryPower | Pump.cpp:180-193 | the level and the reported events are those of `Dosing.DrainedLevel` and `Dosing.DrainEvents` |
| PumpUnit.Pump.RechargeBatteryPower | Pump.cpp:148-157 | the level and the reported events are those of `Dosing.RechargedLevel` and `Dosing.RechargeEvents` |
| PumpUnit.Pump.ChangeBatteryPowerLevel | Pump.cpp:340-345 | sets the level to the given value |
| PumpUnit.Pump.RefillInsulinReservoir | Pump.cpp:348-353 | the insulin reservoir becomes 100 |
| PumpUnit.Pump.RefillGlucagonReservoir | Pump.cpp:356-361 | the glucagon reservoir becomes 100 |
| PumpUnit.Pump.GetPumpStatus | Pump.cpp:168-171 | the pump status is constantly true |
| PumpUnit.Pump.PrepareInjection | Pump.cpp:249-316 | state, events and the message sent are exactly those of `Dosing.PrepareInjection`; the reservoirs stay in 0..100 |
| PumpUnit.Pump.TakeFromReservoir | Pump.cpp:258-311 | the chosen reservoir follows `Dosing.DecreaseReservoir`, the other is unchanged; a truncation logs critical, then the fill-level alert follows |
| PumpUnit.Pump.InjectHormoneToBody | Pump.cpp:222-245 | appends the encoded dose to the messages sent to the body |
| PumpUnit.RefillTwice | Pump.cpp:348-361 | refilling twice leaves both reservoirs at 100, like refilling once, and changes no other field |
| Scheduling.WriteThenRead | Scheduler.cpp:120-136 | reading the total after writing it gives that total; no other key changes |
| Scheduling.FreshStoreReadsZero | Scheduler.cpp:120-126 | an empty settings file reads a total of 0 |
| Scheduling.Scheduler.constructor | Scheduler.cpp:25-37 | run flag set, persisted total loaded, timer started, so the status is healthy |
| Scheduling.Scheduler.Destroy | Scheduler.cpp:41-44 | the destructor stops the timer, so the status becomes false |
| Scheduling.Scheduler.GetStatus | Scheduler.cpp:49-57 | true exactly while the timer is valid; specified by `Scheduling.Scheduler.constructor` (true) and `Scheduling.Scheduler.Destroy` (false) |
| Scheduling.Scheduler.GetOperationTime | Scheduler.cpp:61-65 | the total grows by the time elapsed since the timer started, never decreases, and is returned |
| Scheduling.Scheduler.SetOperationTime | Scheduler.cpp:69-72 | the total becomes the given milliseconds |
| Scheduling.Scheduler.SetOperationTimeInHours | Scheduler.cpp:166-171 | the total becomes hours · 3,600,000, provided the `int` product fits 32 bits, and reads back as those hours |
| Scheduling.Scheduler.TriggerPump | Scheduler.cpp:76-84 | returns exactly the pump cycle's result, with the cycle's effects |
| Scheduling.Scheduler.SaveOperationTime | Scheduler.cpp:88-96 | updates the total, persists it so that it reads back, reports the whole hours (rounded toward zero) and always succeeds |
| Scheduling.Scheduler.StartOperationTimeCounter | Scheduler.cpp:100-106 | the timer becomes valid, started now; returns true |
| Scheduling.Scheduler.StopOperationTimeCounter | Scheduler.cpp:110-116 | the timer becomes invalid; returns true |
| Scheduling.Scheduler.ReadOperationTime | Scheduler.cpp:120-126 | the total becomes the stored total, or 0 if none is stored |
| Scheduling.Scheduler.WriteOperationTime | Scheduler.cpp:130-136 | the store holds the total under "InsulinPump/TotalOperationTime" |
| Scheduling.Scheduler.SetSchouldRun | Scheduler.cpp:153-161 | the run flag reads back as the value set |
| Scheduling.Scheduler.Tick | Scheduler.cpp:76-96 | a scheduler pass: the pump's result, new state, events and sent message are those of `Dosing.RunCycle`; the elapsed time is added to the total, which is persisted with no other key changed |
| Scheduling.HoursRoundTrip | Scheduler.cpp:166-171 | whole hours in milliseconds divide back to the same hours |
| Scheduling.TotalNeverDecreases | Scheduler.cpp:61-65 | calls at clock readings no earlier than the start never lower the total |
| Scheduling.ReadRepeatedly | Scheduler.cpp:61-65 | getOperationTime called at a sequence of clock readings leaves the total `Scheduling.TotalAfterCalls` describes |
| Scheduling.ReadAtSteadyPace | Scheduler.cpp:61-65 | n reads at a steady interval add n(n+1)/2 intervals to the scheduler's total, more than the time that passed from the second read on |
| Scheduling.EvenTicksTotal | Scheduler.cpp:61-65 | n calls at a steady interval add n(n+1)/2 intervals to the total |
| Scheduling.OverCounting | Scheduler.cpp:61-65 | from the second call on, the total exceeds the time that actually passed |
| Health.OperationHoursThreshold | ControlSystem.cpp:51-69 | the alarm (critical log, beep, vibration, `EXIT_FAILURE`) fires exactly above the maximum; at or below it a non-negative total returns whole hours, never more than the maximum; exactly the maximum passes |
| Health.AlarmNamesCompiledMaximum | ControlSystem.cpp:55-58 | the alarm text names the compile-time maximum of 500 h whatever limit is in use |
| Health.ExitFailureIsAmbiguous | ControlSystem.cpp:51-132 | `EXIT_FAILURE` is also a legitimate result: one hour of operation, or a battery at 1 % against a minimum of 1 |
| Health.BatteryThreshold | ControlSystem.cpp:118-132 | the battery alarm fires exactly below the minimum; otherwise the level is returned unchanged, so the minimum itself passes |
| Health.SchedulerAlarm | ControlSystem.cpp:73-85 | the scheduler alarm fires exactly when the status is false |
| Health.OperationHoursCheck | ControlSystem.cpp:51-69 | the operation-hours decision; specified by `Health.OperationHoursThreshold`, `Health.AlarmNamesCompiledMaximum` and `Health.ExitFailureIsAmbiguous` |
| Health.BatteryCheck | ControlSystem.cpp:118-132 | the battery decision; specified by `Health.BatteryThreshold` and `Health.ExitFailureIsAmbiguous` |
| Health.ControlSystem.constructor | ControlSystem.cpp:26-46 | run flag true, battery minimum 10, maximum 500 hours; the pump, its scheduler and the tracer are built; the timer runs |
| Health.ControlSystem.RaiseAlarm | ControlSystem.cpp:59-61 | appends a critical log, a beep and a vibration |
| Health.ControlSystem.CheckOperationHours | ControlSystem.cpp:51-69 | adds the elapsed time to the scheduler's total (the check is not read-only), then returns and reports `Health.OperationHoursCheck` of the new total |
| Health.ControlSystem.CheckScheduler | ControlSystem.cpp:73-85 | returns the scheduler's status and raises the alarm only when it is false |
| Health.ControlSystem.CheckPump | ControlSystem.cpp:89-101 | always true |
| Health.ControlSystem.CheckBatteryStatus | ControlSystem.cpp:118-132 | returns and reports `Health.BatteryCheck` of the level and the current minimum |
| Health.ControlSystem.SetBatteryMinLoad | ControlSystem.cpp:144-152 | the minimum reads back as the value set |
| Health.ControlSystem.SetMaxOperationHours | ControlSystem.cpp:156-164 | the maximum reads back as the value set, and it is the limit the next check uses |
| Health.ControlSystem.SetSchouldRun | ControlSystem.cpp:168-176 | the run flag reads back as the value set |

## Left out

- File and pipe I/O: opening, reading and removing the sensor file, and writing the body pipe. The reading is a parameter; the messages are collected in `sentToBody`.
- The Tracer's log file, timestamps, the user-interface echo and `QApplication::beep`. These are replaced by the event log. `checkTracer` depends only on the log file's state and is not modelled.
- User-interface signals and slots (`emit` of levels and hours, `connect` in the constructor). The hours `saveOperationTime` signals are returned as `reportedHours`.
- The two threads and their `sleep` pacing (`main.cpp`). One scheduler pass is `Scheduling.Scheduler.Tick`.
- The body simulator, with its floating-point glucose dynamics and FIFOs, is not part of this model.
- The `ConfigFileName` accessors of the scheduler, `getScheduler`, and the pump's battery-status query `checkPumpBatteryStatus`. The battery level is a parameter of `CheckBatteryStatus`.
- Health.ControlSystem.constructor: the source builds `new Pump()` from an older revision of the pump class. The model builds `Pump(tracer, cfg)` from a configuration record and shares one tracer between the pump and the checks.
- Health.ControlSystem.CheckPump: the alarm branch for a false pump status is not modelled, because `getPumpStatus` is constantly true.
- Scheduling.Scheduler.GetOperationTime: the qint64 total is an unbounded integer; 64-bit overflow is not modelled.
- Scheduling.Scheduler.GetOperationTime, Scheduling.Scheduler.SaveOperationTime, Scheduling.Scheduler.Tick and Health.ControlSystem.CheckOperationHours: require a valid timer started no later than `now`. The source never checks this; the elapsed time of an invalid timer is not modelled.
- Dosing.CalculateNeededHormone: the pump's `int` arithmetic (`abs(currentBSLevel - target)`) is on unbounded integers; 32-bit overflow of readings near the `int` limits is not modelled.
- The debug output of `calculateNeededHormone` to the console is not modelled.
- PumpUnit.Pump.RunPump: requires a non-zero sensitivity factor, since the source's integer division by zero is undefined behaviour.
- Scheduling.Scheduler.SetOperationTimeInHours and Health.ControlSystem.CheckOperationHours: require the `int` product `hours*60*60*1000` to fit 32 bits (|hours| ≤ 596), since signed overflow is undefined behaviour.
- The `active` flag is set by `initPump` and never read by the code modelled here.
