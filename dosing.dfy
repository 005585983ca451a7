/** The pump's control cycle as values: battery drain and recharge, reservoir
    decrease and fill-level alerts, the dose calculation, the dosing decision,
    the preparation of an injection and one whole cycle of runPump. Each
    function returns the new pump state together with the Tracer events and
    the body messages the step produces; the class in PumpUnit is proved to
    follow them, and the lemmas below state what the source promises of them. */
module Dosing {
  import opened CInt
  import opened Tracing
  import opened Protocol
  import opened Decimal

  /** MAX_BATTERY_CHARGE (Pump.h). */
  const MAX_BATTERY_CHARGE: int := 100
  /** The level a refill sets. */
  const FULL_RESERVOIR: int := 100

  /** The configuration record (Config.h). */
  datatype Config = Config(
    hsf: int,
    upperLevel: int,
    lowerLevel: int,
    upperLimit: int,
    lowerLimit: int,
    upperAlarm: int,
    lowerAlarm: int,
    absMaxBSL: int,
    resWarn: int,
    resCrit: int,
    battWarn: int,
    battCrit: int,
    maxOpTime: int,
    schedInt: int,
    contrInt: int)

  /** The thresholds the pump copies out of the configuration. */
  datatype Settings = Settings(
    hormoneSensitivityFactor: int,
    upperTargetBSL: int,
    lowerTargetBSL: int,
    upperAlarmLimit: int,
    lowerAlarmLimit: int,
    reservoirWarning: int,
    reservoirCritical: int)

  /** The pump's working attributes. */
  datatype PumpState = PumpState(
    batteryPowerLevel: int,
    insulinReservoirLevel: int,
    glucagonReservoirLevel: int,
    currentBSLevel: int,
    latestBSLevel: int,
    delay: bool,
    insulin: bool)

  predicate ReservoirsInRange(s: PumpState) {
    0 <= s.insulinReservoirLevel <= FULL_RESERVOIR &&
    0 <= s.glucagonReservoirLevel <= FULL_RESERVOIR
  }

  // ---------------------------------------------------------------------
  // Battery

  predicate DrainAccepted(level: int, powerdrain: int) {
    0 < powerdrain <= level
  }

  /** The level after drainBatteryPower(powerdrain). */
  function DrainedLevel(level: int, powerdrain: int): int {
    if DrainAccepted(level, powerdrain) then level - powerdrain else level
  }

  /** What drainBatteryPower(powerdrain) reports. */
  function DrainEvents(level: int, powerdrain: int): seq<Event> {
    if DrainAccepted(level, powerdrain) then [] else [Log(Critical, PowerDrainTooHigh)]
  }

  /** A drain removes exactly the requested power when it is positive and
      available; anything else leaves the level alone and is reported as
      critical. The level never goes below zero by draining. */
  lemma DrainBattery(level: int, powerdrain: int)
    ensures 0 < powerdrain <= level ==>
      DrainedLevel(level, powerdrain) == level - powerdrain && DrainEvents(level, powerdrain) == []
    ensures !(0 < powerdrain <= level) ==>
      DrainedLevel(level, powerdrain) == level &&
      DrainEvents(level, powerdrain) == [Log(Critical, PowerDrainTooHigh)]
    ensures DrainedLevel(level, powerdrain) >= 0 || DrainedLevel(level, powerdrain) == level
    ensures DrainedLevel(level, powerdrain) <= level
  {
  }

  predicate RechargeAccepted(level: int, charge: int) {
    charge >= level && charge <= MAX_BATTERY_CHARGE
  }

  /** The level after rechargeBatteryPower(charge). */
  function RechargedLevel(level: int, charge: int): int {
    if RechargeAccepted(level, charge) then charge else level
  }

  /** rechargeBatteryPower reports its "not charged" message whatever
      happened. */
  function RechargeEvents(level: int, charge: int): seq<Event> {
    [Log(Critical, BatteryNotCharged)]
  }

  /** A recharge takes effect only for a charge between the current level
      and the maximum; the critical message is written either way. */
  lemma RechargeBattery(level: int, charge: int)
    ensures level <= charge <= MAX_BATTERY_CHARGE ==> RechargedLevel(level, charge) == charge
    ensures !(level <= charge <= MAX_BATTERY_CHARGE) ==> RechargedLevel(level, charge) == level
    ensures RechargeEvents(level, charge) == [Log(Critical, BatteryNotCharged)]
    ensures level <= MAX_BATTERY_CHARGE ==> level <= RechargedLevel(level, charge) <= MAX_BATTERY_CHARGE
  {
  }

  // ---------------------------------------------------------------------
  // Reservoirs

  /** A reservoir's new level and the amount actually delivered. */
  datatype Dispensed = Dispensed(level: int, delivered: int, truncated: bool)

  /** The reservoir step of prepareInjection: the full amount if the
      reservoir holds it, otherwise whatever is left. */
  function DecreaseReservoir(level: int, amount: int): Dispensed {
    if level >= amount then Dispensed(level - amount, amount, false)
    else Dispensed(0, level, true)
  }

  /** A positive request on a non-negative level delivers min(amount, level)
      and lowers the level by exactly that, never below zero. */
  lemma DecreaseNeverNegative(level: int, amount: int)
    requires level >= 0 && amount > 0
    ensures var d := DecreaseReservoir(level, amount);
      d.delivered == (if amount <= level then amount else level) &&
      d.level == level - d.delivered && 0 <= d.level <= level &&
      (d.truncated <==> amount > level)
  {
  }

  function ReservoirOf(s: PumpState, insulin: bool): int {
    if insulin then s.insulinReservoirLevel else s.glucagonReservoirLevel
  }

  function WithReservoir(s: PumpState, insulin: bool, level: int): (t: PumpState)
    ensures ReservoirOf(t, insulin) == level
    ensures ReservoirOf(t, !insulin) == ReservoirOf(s, !insulin)
    ensures t.batteryPowerLevel == s.batteryPowerLevel
    ensures t.currentBSLevel == s.currentBSLevel && t.latestBSLevel == s.latestBSLevel
    ensures t.delay == s.delay && t.insulin == s.insulin
  {
    if insulin then s.(insulinReservoirLevel := level) else s.(glucagonReservoirLevel := level)
  }

  /** The fill-level message written after a decrease. Both go through
      writeWarningLog, the "CRITICAL!" one included. */
  function LevelAlert(insulin: bool, level: int, st: Settings): seq<Event> {
    if level <= st.reservoirCritical then [Log(Warning, ReservoirEmpty(insulin))]
    else if level <= st.reservoirWarning then [Log(Warning, ReservoirNearlyEmpty(insulin))]
    else []
  }

  /** At most one alert: "CRITICAL!" exactly at or below the critical level,
      "Warning!" exactly between the two thresholds, nothing above both, and
      never at the Critical log level. */
  lemma LevelAlertThresholds(insulin: bool, level: int, st: Settings)
    ensures |LevelAlert(insulin, level, st)| <= 1
    ensures Log(Warning, ReservoirEmpty(insulin)) in LevelAlert(insulin, level, st)
        <==> level <= st.reservoirCritical
    ensures Log(Warning, ReservoirNearlyEmpty(insulin)) in LevelAlert(insulin, level, st)
        <==> st.reservoirCritical < level <= st.reservoirWarning
    ensures LevelAlert(insulin, level, st) == []
        <==> level > st.reservoirCritical && level > st.reservoirWarning
    ensures forall m :: Log(Critical, m) !in LevelAlert(insulin, level, st)
  {
  }

  // ---------------------------------------------------------------------
  // Dose calculation and decision

  /** calculateNeededHormone: the distance to the target divided by the
      sensitivity factor. The integer division already truncates, so the
      `ceil` around it has no effect. */
  function CalculateNeededHormone(current: int, target: int, hsf: int): (units: int)
    requires hsf != 0
    ensures hsf > 0 ==> 0 <= units && hsf * units <= Abs(current - target) < hsf * (units + 1)
    ensures current == target ==> units == 0
  {
    TruncDiv(Abs(current - target), hsf)
  }

  /** The dose is the quotient rounded down, not up: 11 over 5 gives 2. */
  lemma DoseRoundsDown()
    ensures CalculateNeededHormone(121, 110, 5) == 2
  {
  }

  /** Which hormone is selected and how much of it. */
  datatype Decision = Decision(insulin: bool, units: int)

  /** The branch structure of runPump: insulin above the upper limit while
      rising, glucagon below the lower limit while falling, each aimed at
      the last reading when the previous cycle injected and at the target
      level otherwise; in every other case no dose, and the hormone flag
      keeps its old value. */
  function Decide(st: Settings, current: int, latest: int, delay: bool, insulinFlag: bool): Decision
    requires st.hormoneSensitivityFactor != 0
  {
    if current > st.upperAlarmLimit then
      if current > latest then
        Decision(true, CalculateNeededHormone(current, if delay then latest else st.upperTargetBSL, st.hormoneSensitivityFactor))
      else Decision(insulinFlag, 0)
    else if current < st.lowerAlarmLimit then
      if current < latest then
        Decision(false, CalculateNeededHormone(current, if delay then latest else st.lowerTargetBSL, st.hormoneSensitivityFactor))
      else Decision(insulinFlag, 0)
    else Decision(insulinFlag, 0)
  }

  /** A dose is prescribed only on a strict rise above the upper limit
      (insulin) or a strict fall below the lower one (glucagon), and then it
      is the calculated amount towards the target; otherwise the dose is 0 and
      the flag is kept. */
  lemma DecisionBranches(st: Settings, current: int, latest: int, delay: bool, insulinFlag: bool)
    requires st.hormoneSensitivityFactor != 0
    ensures var d := Decide(st, current, latest, delay, insulinFlag);
      var hsf := st.hormoneSensitivityFactor;
      (current > st.upperAlarmLimit && current > latest ==>
        d == Decision(true, CalculateNeededHormone(current, if delay then latest else st.upperTargetBSL, hsf))) &&
      (current <= st.upperAlarmLimit && current < st.lowerAlarmLimit && current < latest ==>
        d == Decision(false, CalculateNeededHormone(current, if delay then latest else st.lowerTargetBSL, hsf))) &&
      (d.units != 0 ==>
        (d.insulin && current > st.upperAlarmLimit && current > latest) ||
        (!d.insulin && current < st.lowerAlarmLimit && current < latest)) &&
      (!(current > st.upperAlarmLimit && current > latest) &&
       !(current <= st.upperAlarmLimit && current < st.lowerAlarmLimit && current < latest) ==>
        d == Decision(insulinFlag, 0))
  {
  }

  /** With equal current and latest readings the strict comparisons never
      prescribe a dose. */
  lemma NoDoseWithoutChange(st: Settings, current: int, delay: bool, insulinFlag: bool)
    requires st.hormoneSensitivityFactor != 0
    ensures Decide(st, current, current, delay, insulinFlag) == Decision(insulinFlag, 0)
  {
  }

  // ---------------------------------------------------------------------
  // Injection

  /** The pump state, the events and the body message of one
      prepareInjection call. */
  datatype Effect = Effect(state: PumpState, events: seq<Event>, message: string)

  /** prepareInjection: a positive amount drains one unit of power, sets the
      delay flag and takes the amount from the selected reservoir (or what is
      left of it), then reports the fill level; every call, whatever the
      amount, sends the delivered amount to the body. */
  function PrepareInjection(s: PumpState, st: Settings, insulin: bool, amount: int): Effect {
    if amount > 0 then
      var powered := s.(batteryPowerLevel := DrainedLevel(s.batteryPowerLevel, 1), delay := true);
      var d := DecreaseReservoir(ReservoirOf(powered, insulin), amount);
      Effect(WithReservoir(powered, insulin, d.level),
             DrainEvents(s.batteryPowerLevel, 1) + DispenseEvents(insulin, d, st),
             EncodeInjection(d.delivered, insulin))
    else
      Effect(s, [], EncodeInjection(amount, insulin))
  }

  /** What the reservoir step reports: a truncation as critical, then the
      fill level. */
  function DispenseEvents(insulin: bool, d: Dispensed, st: Settings): seq<Event> {
    (if d.truncated then [Log(Critical, ReservoirTooLow(insulin))] else [])
      + LevelAlert(insulin, d.level, st)
  }

  /** A positive amount lowers only the selected reservoir, by min(amount,
      level) and never below zero, reports truncation as critical and sends
      the delivered amount; the other reservoir, the readings and the
      hormone flag are untouched. A non-positive amount changes nothing. */
  lemma PrepareInjectionEffect(s: PumpState, st: Settings, insulin: bool, amount: int)
    requires ReservoirsInRange(s)
    ensures var e := PrepareInjection(s, st, insulin, amount);
      var level := ReservoirOf(s, insulin);
      var delivered := if amount <= level then amount else level;
      ReservoirsInRange(e.state) &&
      ReservoirOf(e.state, !insulin) == ReservoirOf(s, !insulin) &&
      e.state.currentBSLevel == s.currentBSLevel && e.state.latestBSLevel == s.latestBSLevel &&
      e.state.insulin == s.insulin &&
      (amount > 0 ==>
        ReservoirOf(e.state, insulin) == level - delivered &&
        e.state.delay &&
        e.state.batteryPowerLevel == DrainedLevel(s.batteryPowerLevel, 1) &&
        e.message == EncodeInjection(delivered, insulin) &&
        (amount > level <==> Log(Critical, ReservoirTooLow(insulin)) in e.events)) &&
      (amount <= 0 ==> e.state == s && e.events == [] && e.message == EncodeInjection(amount, insulin))
  {
    if amount > 0 {
      var d := DecreaseReservoir(ReservoirOf(s, insulin), amount);
      var e := PrepareInjection(s, st, insulin, amount);
      LevelAlertThresholds(insulin, d.level, st);
      if amount <= ReservoirOf(s, insulin) {
        assert e.events == DrainEvents(s.batteryPowerLevel, 1) + LevelAlert(insulin, d.level, st);
      }
    }
  }

  /** The reservoir example: 24 units requested from an insulin reservoir
      holding 10 deliver 10, empty it and are reported as critical. */
  lemma ShortReservoirExample(s: PumpState, st: Settings)
    requires s.insulinReservoirLevel == 10
    ensures var e := PrepareInjection(s, st, true, 24);
      e.state.insulinReservoirLevel == 0 &&
      e.message == "1000" &&
      Log(Critical, ReservoirTooLow(true)) in e.events
  {
    var e := PrepareInjection(s, st, true, 24);
    assert e.message == EncodeInjection(10, true);
    assert DecimalDigits(10) == "10";
  }

  // ---------------------------------------------------------------------
  // One cycle

  /** The outcome of runPump: its return value, the new state, the events it
      reported and the messages it sent to the body. */
  datatype CycleResult = CycleResult(ok: bool, state: PumpState, events: seq<Event>, sent: seq<string>)

  /** The reading the cycle compares the new one against. A cycle that
      starts with a non-positive current reading (the first cycle, or any
      cycle after a reading of 0 or below, an undetected -1 included) uses
      the new reading itself; any other cycle uses the previous reading. */
  function LatestFor(s: PumpState, reading: int): int {
    if s.currentBSLevel <= 0 then reading else s.currentBSLevel
  }

  /** runPump with `reading` as what the sensor returns this cycle. */
  function RunCycle(s: PumpState, st: Settings, reading: int): CycleResult
    requires st.hormoneSensitivityFactor != 0
  {
    var drained := s.(batteryPowerLevel := DrainedLevel(s.batteryPowerLevel, 1));
    var drainEvents := DrainEvents(s.batteryPowerLevel, 1);
    if s.currentBSLevel <= 0 && reading == -1 then
      CycleResult(false, drained.(currentBSLevel := reading),
                  drainEvents + [Log(Critical, NoBodyFound)], [])
    else
      var e := DoseAndInject(Sensed(s, reading), st);
      CycleResult(true, e.state, drainEvents + e.events, [e.message])
  }

  /** The state once a body was found: battery drained, readings updated. */
  function Sensed(s: PumpState, reading: int): PumpState {
    s.(batteryPowerLevel := DrainedLevel(s.batteryPowerLevel, 1),
       currentBSLevel := reading, latestBSLevel := LatestFor(s, reading))
  }

  /** A cycle without a body is the drain followed by the report. */
  lemma RunCycleMissing(s: PumpState, st: Settings, reading: int)
    requires st.hormoneSensitivityFactor != 0
    requires s.currentBSLevel <= 0 && reading == -1
    ensures RunCycle(s, st, reading)
        == CycleResult(false, s.(batteryPowerLevel := DrainedLevel(s.batteryPowerLevel, 1), currentBSLevel := reading),
                       DrainEvents(s.batteryPowerLevel, 1) + [Log(Critical, NoBodyFound)], [])
  {
  }

  /** A cycle that finds a body is the drain followed by DoseAndInject from
      the sensed state. */
  lemma RunCycleFound(s: PumpState, st: Settings, reading: int)
    requires st.hormoneSensitivityFactor != 0
    requires !(s.currentBSLevel <= 0 && reading == -1)
    ensures var e := DoseAndInject(Sensed(s, reading), st);
      RunCycle(s, st, reading)
        == CycleResult(true, e.state, DrainEvents(s.batteryPowerLevel, 1) + e.events, [e.message])
  {
  }

  /** The second half of runPump, once the readings are in place: decide,
      clear the delay flag, prepare the injection. */
  function DoseAndInject(s: PumpState, st: Settings): Effect
    requires st.hormoneSensitivityFactor != 0
  {
    var d := Decide(st, s.currentBSLevel, s.latestBSLevel, s.delay, s.insulin);
    PrepareInjection(s.(insulin := d.insulin, delay := false), st, d.insulin, d.units)
  }

  /** The dose a successful cycle decides on. */
  function CycleDose(s: PumpState, st: Settings, reading: int): Decision
    requires st.hormoneSensitivityFactor != 0
  {
    Decide(st, reading, LatestFor(s, reading), s.delay, s.insulin)
  }

  /** A cycle fails exactly when it starts with a non-positive current
      reading and the sensor yields -1; then it reports "No body found!", sends nothing and only the battery and the
      current reading (now -1) change. Otherwise it sends exactly one message. */
  lemma CycleFailsOnlyWithoutBody(s: PumpState, st: Settings, reading: int)
    requires st.hormoneSensitivityFactor != 0
    ensures var r := RunCycle(s, st, reading);
      (!r.ok <==> s.currentBSLevel <= 0 && reading == -1) &&
      (!r.ok ==>
        r.sent == [] &&
        r.events[|r.events| - 1] == Log(Critical, NoBodyFound) &&
        r.state == s.(batteryPowerLevel := DrainedLevel(s.batteryPowerLevel, 1), currentBSLevel := -1)) &&
      (r.ok ==> |r.sent| == 1)
  {
  }

  /** The missing-body check runs only on a cycle that starts with a
      non-positive current reading: after a positive reading, -1 is treated
      as a glucose level. */
  lemma LaterMissingBodyNotDetected(s: PumpState, st: Settings)
    requires st.hormoneSensitivityFactor != 0
    requires s.currentBSLevel > 0
    ensures RunCycle(s, st, -1).ok
    ensures RunCycle(s, st, -1).state.currentBSLevel == -1
    ensures st.lowerAlarmLimit > -1 && -1 <= st.upperAlarmLimit ==> !CycleDose(s, st, -1).insulin
  {
  }

  /** On a cycle that starts with a non-positive current reading (the first
      cycle, or one after a reading of 0 or below), a reading other than -1
      is also taken as the latest one, so the cycle never doses: no reservoir
      changes, the delay flag is cleared and "0000" is sent. */
  lemma FirstCycleDoesNotDose(s: PumpState, st: Settings, reading: int)
    requires st.hormoneSensitivityFactor != 0
    requires s.currentBSLevel <= 0 && reading != -1
    ensures var r := RunCycle(s, st, reading);
      r.ok && r.state.currentBSLevel == reading && r.state.latestBSLevel == reading &&
      r.state.insulinReservoirLevel == s.insulinReservoirLevel &&
      r.state.glucagonReservoirLevel == s.glucagonReservoirLevel &&
      !r.state.delay && r.sent == ["0000"] &&
      r.state.batteryPowerLevel == DrainedLevel(s.batteryPowerLevel, 1)
  {
    NoDoseWithoutChange(st, reading, s.delay, s.insulin);
    ZeroDoseMessage(s.insulin);
  }

  /** After a successful cycle the delay flag is set exactly when a dose was
      decided; the battery is drained once more only in that case, so at most
      two units per cycle; the reservoirs stay within 0..100. */
  lemma CycleDelayAndDrain(s: PumpState, st: Settings, reading: int)
    requires st.hormoneSensitivityFactor != 0
    requires ReservoirsInRange(s)
    ensures var r := RunCycle(s, st, reading);
      var d := CycleDose(s, st, reading);
      var once := DrainedLevel(s.batteryPowerLevel, 1);
      ReservoirsInRange(r.state) &&
      (r.ok ==> (r.state.delay <==> d.units > 0)) &&
      (r.ok ==> r.state.batteryPowerLevel == if d.units > 0 then DrainedLevel(once, 1) else once) &&
      s.batteryPowerLevel - 2 <= r.state.batteryPowerLevel <= s.batteryPowerLevel
  {
    var r := RunCycle(s, st, reading);
    if r.ok {
      var d := CycleDose(s, st, reading);
      var decided := s.(batteryPowerLevel := DrainedLevel(s.batteryPowerLevel, 1),
                        currentBSLevel := reading, latestBSLevel := LatestFor(s, reading),
                        insulin := d.insulin, delay := false);
      PrepareInjectionEffect(decided, st, d.insulin, d.units);
    }
  }

  /** A successful cycle in which neither dosing branch fires keeps the
      hormone flag and both reservoirs and sends "0000". */
  lemma IdleCycleKeepsFlag(s: PumpState, st: Settings, reading: int)
    requires st.hormoneSensitivityFactor != 0
    requires !(s.currentBSLevel <= 0 && reading == -1)
    requires !(reading > st.upperAlarmLimit && reading > LatestFor(s, reading))
    requires !(reading < st.lowerAlarmLimit && reading < LatestFor(s, reading))
    ensures var r := RunCycle(s, st, reading);
      r.state.insulin == s.insulin &&
      r.state.insulinReservoirLevel == s.insulinReservoirLevel &&
      r.state.glucagonReservoirLevel == s.glucagonReservoirLevel &&
      r.sent == ["0000"]
  {
    ZeroDoseMessage(s.insulin);
  }

  /** Every successful cycle that decides a dose of 0 units, whether or not
      a branch fired, keeps both reservoirs, leaves the delay flag cleared
      and sends "0000". */
  lemma ZeroDoseCycle(s: PumpState, st: Settings, reading: int)
    requires st.hormoneSensitivityFactor != 0
    requires !(s.currentBSLevel <= 0 && reading == -1)
    requires CycleDose(s, st, reading).units == 0
    ensures var r := RunCycle(s, st, reading);
      r.ok && !r.state.delay &&
      r.state.insulinReservoirLevel == s.insulinReservoirLevel &&
      r.state.glucagonReservoirLevel == s.glucagonReservoirLevel &&
      r.sent == ["0000"]
  {
    ZeroDoseMessage(CycleDose(s, st, reading).insulin);
  }

  /** A branch can fire with a dose of 0 units: the hormone flag is set to
      insulin although nothing is injected. */
  lemma ZeroDoseMayFlipFlag(s: PumpState, st: Settings)
    requires st.hormoneSensitivityFactor == 5 && st.upperAlarmLimit == 110 && st.upperTargetBSL == 110
    requires s.currentBSLevel == 110 && !s.delay && !s.insulin
    ensures CycleDose(s, st, 112) == Decision(true, 0)
    ensures RunCycle(s, st, 112).state.insulin
  {
  }

  /** A -1 reading after a positive one is dosed as a very low level: after a
      level of 100, with lower limit 70, target 90 and sensitivity 5, the
      pump selects glucagon and 18 units. */
  lemma LaterMinusOneDosesGlucagon(s: PumpState, st: Settings)
    requires st.hormoneSensitivityFactor == 5 && st.lowerAlarmLimit == 70 && st.lowerTargetBSL == 90
    requires st.upperAlarmLimit >= -1
    requires s.currentBSLevel == 100 && !s.delay
    ensures CycleDose(s, st, -1) == Decision(false, 18)
    ensures RunCycle(s, st, -1).ok
  {
  }

  /** A -1 after a positive reading goes unnoticed and becomes the current
      level, so a second -1 in a row is detected: that cycle fails. */
  lemma SecondMinusOneDetected(s: PumpState, st: Settings)
    requires st.hormoneSensitivityFactor != 0
    requires s.currentBSLevel > 0
    ensures RunCycle(s, st, -1).ok
    ensures !RunCycle(RunCycle(s, st, -1).state, st, -1).ok
  {
  }

  /** After an undetected -1, the next positive reading is taken as the
      latest one as well, so that cycle doses nothing. */
  lemma NoDoseAfterUndetectedMinusOne(s: PumpState, st: Settings, reading: int)
    requires st.hormoneSensitivityFactor != 0
    requires s.currentBSLevel > 0 && reading > 0
    ensures CycleDose(RunCycle(s, st, -1).state, st, reading).units == 0
  {
    var t := RunCycle(s, st, -1).state;
    NoDoseWithoutChange(st, reading, t.delay, t.insulin);
  }

  /** The worked example: sensitivity 5, upper limit 130, target 110, a rise
      from 110 to 230 without a pending delay selects insulin and 24 units. */
  lemma HighReadingExample(s: PumpState, st: Settings)
    requires st.hormoneSensitivityFactor == 5 && st.upperAlarmLimit == 130 && st.upperTargetBSL == 110
    requires s.currentBSLevel == 110 && !s.delay
    ensures CycleDose(s, st, 230) == Decision(true, 24)
  {
  }
}
