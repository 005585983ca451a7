/** The insulin pump (Pump.cpp): its working attributes are fields updated
    in place, and every operation is proved to do what the corresponding
    function of Dosing says. The sensor file is replaced by the reading it
    yields (Protocol.ReadBloodSugarSensor), and the body pipe by the list of
    messages written to it. User-interface signals are not modelled. */
module PumpUnit {
  import opened Tracing
  import opened Protocol
  import opened Dosing

  class Pump {
    const tracer: Tracer

    // Thresholds copied from the configuration.
    const hormoneSensitivityFactor: int
    const upperTargetBSL: int
    const lowerTargetBSL: int
    const upperAlarmLimit: int
    const lowerAlarmLimit: int
    const reservoirWarning: int
    const reservoirCritical: int

    // Working attributes.
    var batteryPowerLevel: int
    var active: bool
    var delay: bool
    var insulin: bool
    var insulinReservoirLevel: int
    var glucagonReservoirLevel: int
    var currentBSLevel: int
    var latestBSLevel: int

    /** Every message written to the body pipe, oldest first. */
    var sentToBody: seq<string>

    function State(): PumpState
      reads this
    {
      PumpState(batteryPowerLevel, insulinReservoirLevel, glucagonReservoirLevel,
                currentBSLevel, latestBSLevel, delay, insulin)
    }

    function Thresholds(): Settings {
      Settings(hormoneSensitivityFactor, upperTargetBSL, lowerTargetBSL,
               upperAlarmLimit, lowerAlarmLimit, reservoirWarning, reservoirCritical)
    }

    /** Both reservoirs hold 0..100 units, which initPump establishes and
        every operation keeps. */
    ghost predicate Valid()
      reads this
    {
      ReservoirsInRange(State())
    }

    /** Copies the thresholds; the working attributes stay unset until
        InitPump. */
    constructor (trcr: Tracer, cfg: Config)
      ensures tracer == trcr
      ensures hormoneSensitivityFactor == cfg.hsf
      ensures upperTargetBSL == cfg.upperLevel && lowerTargetBSL == cfg.lowerLevel
      ensures upperAlarmLimit == cfg.upperLimit && lowerAlarmLimit == cfg.lowerLimit
      ensures reservoirWarning == cfg.resWarn && reservoirCritical == cfg.resCrit
      ensures sentToBody == []
    {
      tracer := trcr;
      hormoneSensitivityFactor := cfg.hsf;
      upperTargetBSL := cfg.upperLevel;
      lowerTargetBSL := cfg.lowerLevel;
      upperAlarmLimit := cfg.upperLimit;
      lowerAlarmLimit := cfg.lowerLimit;
      reservoirWarning := cfg.resWarn;
      reservoirCritical := cfg.resCrit;
      sentToBody := [];
    }

    method InitPump()
      modifies this
      ensures Valid()
      ensures batteryPowerLevel == MAX_BATTERY_CHARGE && active && !delay && !insulin
      ensures insulinReservoirLevel == FULL_RESERVOIR && glucagonReservoirLevel == FULL_RESERVOIR
      ensures currentBSLevel == 0 && latestBSLevel == 0
      ensures sentToBody == old(sentToBody)
    {
      batteryPowerLevel := 100;
      active := true;
      delay := false;
      RefillInsulinReservoir();
      RefillGlucagonReservoir();
      insulin := false;
      currentBSLevel := 0;
      latestBSLevel := 0;
    }

    /** One control cycle, `reading` being what the sensor yields this
        cycle (-1 when there is no body). */
    method RunPump(reading: int) returns (ok: bool)
      requires Valid()
      requires hormoneSensitivityFactor != 0
      modifies this, tracer
      ensures Valid()
      ensures var r := RunCycle(old(State()), Thresholds(), reading);
        ok == r.ok && State() == r.state &&
        tracer.events == old(tracer.events) + r.events &&
        sentToBody == old(sentToBody) + r.sent
      ensures active == old(active)
    {
      ghost var s := State();
      ghost var before := tracer.events;
      var bodyFound := StartCycle(reading);
      if !bodyFound {
        RunCycleMissing(s, Thresholds(), reading);
        AppendTwice(before, DrainEvents(s.batteryPowerLevel, 1), [Log(Critical, NoBodyFound)]);
        return false;
      }
      ghost var e := Dosing.DoseAndInject(Sensed(s, reading), Thresholds());
      DoseAndInject();
      AppendTwice(before, DrainEvents(s.batteryPowerLevel, 1), e.events);
      RunCycleFound(s, Thresholds(), reading);
      ok := true;
    }

    /** The first half of runPump: drain the battery by one unit, then take
        the reading (TakeReading). */
    method StartCycle(reading: int) returns (bodyFound: bool)
      modifies this`batteryPowerLevel, this`currentBSLevel, this`latestBSLevel, tracer
      ensures bodyFound == !(old(currentBSLevel) <= 0 && reading == -1)
      ensures State() == if bodyFound then Sensed(old(State()), reading)
                         else old(State()).(batteryPowerLevel := DrainedLevel(old(batteryPowerLevel), 1),
                                            currentBSLevel := reading)
      ensures bodyFound ==> tracer.events == old(tracer.events) + DrainEvents(old(batteryPowerLevel), 1)
      ensures !bodyFound ==>
        tracer.events == old(tracer.events) + DrainEvents(old(batteryPowerLevel), 1) + [Log(Critical, NoBodyFound)]
    {
      DrainBatteryPower(1);
      bodyFound := TakeReading(reading);
    }

    /** The rest of runPump once the readings are in place: the dosing
        decision, clearing the delay flag and preparing the injection. */
    method DoseAndInject()
      requires Valid()
      requires hormoneSensitivityFactor != 0
      modifies this, tracer
      ensures Valid()
      ensures var e := Dosing.DoseAndInject(old(State()), Thresholds());
        State() == e.state &&
        tracer.events == old(tracer.events) + e.events &&
        sentToBody == old(sentToBody) + [e.message]
      ensures active == old(active)
    {
      var hormonesToInject := DecideDose();
      delay := false;
      PrepareInjection(insulin, hormonesToInject);
    }

    /** The sensor step of runPump. When the current reading is not positive
        (the first cycle, or after a reading of 0 or below) a -1 reading is
        reported as "No body found!" and ends the cycle, and any other reading
        becomes both the current and the latest one. Otherwise the current
        reading moves to latest and the new one, whatever it is, becomes
        current. */
    method TakeReading(reading: int) returns (bodyFound: bool)
      modifies this`currentBSLevel, this`latestBSLevel, tracer
      ensures bodyFound == !(old(currentBSLevel) <= 0 && reading == -1)
      ensures currentBSLevel == reading
      ensures latestBSLevel == if bodyFound then LatestFor(old(State()), reading) else old(latestBSLevel)
      ensures bodyFound ==> tracer.events == old(tracer.events)
      ensures !bodyFound ==> tracer.events == old(tracer.events) + [Log(Critical, NoBodyFound)]
    {
      bodyFound := true;
      if currentBSLevel <= 0 {
        currentBSLevel := reading;
        if currentBSLevel == -1 {
          tracer.WriteCriticalLog(NoBodyFound);
          bodyFound := false;
        } else {
          latestBSLevel := currentBSLevel;
        }
      } else {
        latestBSLevel := currentBSLevel;
        currentBSLevel := reading;
      }
    }

    /** The branch structure of runPump: sets the hormone flag when a branch
        fires and returns the number of units to inject. */
    method DecideDose() returns (hormonesToInject: int)
      requires hormoneSensitivityFactor != 0
      modifies this`insulin
      ensures Decision(insulin, hormonesToInject)
           == Decide(Thresholds(), currentBSLevel, latestBSLevel, delay, old(insulin))
    {
      hormonesToInject := 0;
      if currentBSLevel > upperAlarmLimit {
        if currentBSLevel > latestBSLevel {
          insulin := true;
          if delay {
            hormonesToInject := CalculateNeededHormone(currentBSLevel, latestBSLevel, hormoneSensitivityFactor);
          } else {
            hormonesToInject := CalculateNeededHormone(currentBSLevel, upperTargetBSL, hormoneSensitivityFactor);
          }
        }
      } else if currentBSLevel < lowerAlarmLimit {
        if currentBSLevel < latestBSLevel {
          insulin := false;
          if delay {
            hormonesToInject := CalculateNeededHormone(currentBSLevel, latestBSLevel, hormoneSensitivityFactor);
          } else {
            hormonesToInject := CalculateNeededHormone(currentBSLevel, lowerTargetBSL, hormoneSensitivityFactor);
          }
        }
      } else {
        hormonesToInject := 0;
      }
    }

    /** drainBatteryPower: takes the power if it is positive and available,
        otherwise only reports. */
    method DrainBatteryPower(powerdrain: int)
      modifies this`batteryPowerLevel, tracer
      ensures batteryPowerLevel == DrainedLevel(old(batteryPowerLevel), powerdrain)
      ensures tracer.events == old(tracer.events) + DrainEvents(old(batteryPowerLevel), powerdrain)
    {
      if powerdrain > 0 && powerdrain <= batteryPowerLevel {
        batteryPowerLevel := batteryPowerLevel - powerdrain;
      } else {
        tracer.WriteCriticalLog(PowerDrainTooHigh);
      }
    }

    /** rechargeBatteryPower: sets the level to `charge` when that is
        between the current level and the maximum; always reports. */
    method RechargeBatteryPower(charge: int)
      modifies this`batteryPowerLevel, tracer
      ensures batteryPowerLevel == RechargedLevel(old(batteryPowerLevel), charge)
      ensures tracer.events == old(tracer.events) + RechargeEvents(old(batteryPowerLevel), charge)
    {
      if charge >= batteryPowerLevel && charge <= MAX_BATTERY_CHARGE {
        batteryPowerLevel := charge;
      }
      tracer.WriteCriticalLog(BatteryNotCharged);
    }

    /** changeBatteryPowerLevel: the user-interface slot sets any level. */
    method ChangeBatteryPowerLevel(level: int)
      modifies this`batteryPowerLevel
      ensures batteryPowerLevel == level
    {
      batteryPowerLevel := level;
    }

    method RefillInsulinReservoir()
      modifies this`insulinReservoirLevel
      ensures insulinReservoirLevel == FULL_RESERVOIR
    {
      insulinReservoirLevel := 100;
    }

    method RefillGlucagonReservoir()
      modifies this`glucagonReservoirLevel
      ensures glucagonReservoirLevel == FULL_RESERVOIR
    {
      glucagonReservoirLevel := 100;
    }

    /** getPumpStatus: constantly true. */
    function GetPumpStatus(): (status: bool)
      ensures status
    {
      true
    }

    /** prepareInjection: takes the dose from the selected reservoir, drains
        the injection mechanism's power, reports the fill level and sends the
        delivered amount to the body. */
    method PrepareInjection(insulin: bool, amount: int)
      requires Valid()
      modifies this, tracer
      ensures Valid()
      ensures var e := Dosing.PrepareInjection(old(State()), Thresholds(), insulin, amount);
        State() == e.state &&
        tracer.events == old(tracer.events) + e.events &&
        sentToBody == old(sentToBody) + [e.message]
      ensures active == old(active)
    {
      var amount := amount;
      if amount > 0 {
        DecreaseNeverNegative(ReservoirOf(State(), insulin), amount);
        ghost var events0 := tracer.events;
        DrainBatteryPower(1);
        delay := true;
        ghost var events1 := tracer.events;
        amount := TakeFromReservoir(insulin, amount);
        AppendTwice(events0, events1[|events0|..], tracer.events[|events1|..]);
      }
      InjectHormoneToBody(amount, insulin);
    }

    /** The reservoir part of prepareInjection, the same for both hormones:
        take the amount or what is left, report a truncation as critical,
        then report the fill level. Returns the amount delivered. */
    method TakeFromReservoir(insulin: bool, amount: int) returns (delivered: int)
      modifies this`insulinReservoirLevel, this`glucagonReservoirLevel, tracer
      ensures var d := DecreaseReservoir(old(ReservoirOf(State(), insulin)), amount);
        delivered == d.delivered &&
        State() == WithReservoir(old(State()), insulin, d.level) &&
        tracer.events == old(tracer.events) + DispenseEvents(insulin, d, Thresholds())
    {
      delivered := amount;
      if insulin {
        if insulinReservoirLevel >= amount {
          insulinReservoirLevel := insulinReservoirLevel - amount;
        } else {
          delivered := insulinReservoirLevel;
          insulinReservoirLevel := 0;
          tracer.WriteCriticalLog(ReservoirTooLow(true));
        }
        if insulinReservoirLevel <= reservoirCritical {
          tracer.WriteWarningLog(ReservoirEmpty(true));
        } else if insulinReservoirLevel <= reservoirWarning {
          tracer.WriteWarningLog(ReservoirNearlyEmpty(true));
        }
      } else {
        if glucagonReservoirLevel >= amount {
          glucagonReservoirLevel := glucagonReservoirLevel - amount;
        } else {
          delivered := glucagonReservoirLevel;
          glucagonReservoirLevel := 0;
          tracer.WriteCriticalLog(ReservoirTooLow(false));
        }
        if glucagonReservoirLevel <= reservoirCritical {
          tracer.WriteWarningLog(ReservoirEmpty(false));
        } else if glucagonReservoirLevel <= reservoirWarning {
          tracer.WriteWarningLog(ReservoirNearlyEmpty(false));
        }
      }
    }

    /** injectHormoneToBody: writes the encoded dose to the body pipe. */
    method InjectHormoneToBody(amount: int, insulin: bool)
      modifies this`sentToBody
      ensures sentToBody == old(sentToBody) + [EncodeInjection(amount, insulin)]
    {
      sentToBody := sentToBody + [EncodeInjection(amount, insulin)];
    }
  }

  /** Refilling twice in a row leaves each reservoir full, like refilling
      once, whatever its level was. */
  method RefillTwice(p: Pump)
    modifies p`insulinReservoirLevel, p`glucagonReservoirLevel
    ensures p.insulinReservoirLevel == FULL_RESERVOIR
    ensures p.glucagonReservoirLevel == FULL_RESERVOIR
    ensures p.batteryPowerLevel == old(p.batteryPowerLevel)
  {
    p.RefillInsulinReservoir();
    p.RefillInsulinReservoir();
    p.RefillGlucagonReservoir();
    p.RefillGlucagonReservoir();
  }
}
