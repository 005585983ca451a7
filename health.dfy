/** The health checks (ControlSystem.cpp): threshold decisions over the
    operation time, the battery level and the scheduler's status, each
    reporting a failure as a critical log followed by the acoustic and the
    vibration alarm.

    The battery level is a parameter of the battery check (the pump's
    battery status query is not part of this model). The pump, the
    scheduler and the checks share one Tracer. */
module Health {
  import opened CInt
  import opened Tracing
  import opened Decimal
  import opened Dosing
  import opened PumpUnit
  import opened Scheduling

  /** BATTERY_MIN_LOAD and MAX_OPERATION_HOURS (ControlSystem.h). */
  const BATTERY_MIN_LOAD: int := 10
  const MAX_OPERATION_HOURS: int := 500

  /** What a check returns and what it reports. */
  datatype Check = Check(result: int, events: seq<Event>)

  /** A failed check: a critical log, a beep and a vibration. */
  function AlarmEvents(m: Message): seq<Event> {
    [Log(Critical, m), Beep, Vibration]
  }

  /** checkOperationHours on a total of `total` milliseconds. The limit uses
      the current `maxHours`, the message the compile-time maximum; the
      hours are returned as an int. */
  function OperationHoursCheck(total: int, maxHours: int): Check {
    if total > maxHours * MS_PER_HOUR then
      Check(EXIT_FAILURE, AlarmEvents(OperationTimeReached(MAX_OPERATION_HOURS, TruncDiv(total, 1000))))
    else
      Check(WrapInt32(TruncDiv(total, MS_PER_HOUR)), [])
  }

  /** checkBatteryStatus on a battery level in percent. */
  function BatteryCheck(level: int, minLoad: int): Check {
    if level < minLoad then Check(EXIT_FAILURE, AlarmEvents(BatteryTooLow(level)))
    else Check(level, [])
  }

  /** What checkScheduler reports for the scheduler's status. */
  function SchedulerEvents(status: bool): seq<Event> {
    if status then [] else AlarmEvents(SchedulerCritical)
  }

  /** The operation time alarm fires exactly above the maximum: a total of
      exactly the maximum is not an alarm. Below it, a non-negative total is
      reported in whole hours, rounded down, which never exceed the maximum. */
  lemma OperationHoursThreshold(total: int, maxHours: int)
    requires InInt32(maxHours * MS_PER_HOUR)
    ensures var c := OperationHoursCheck(total, maxHours);
      (c.events != [] <==> total > maxHours * MS_PER_HOUR) &&
      (total > maxHours * MS_PER_HOUR ==>
        c.result == EXIT_FAILURE &&
        c.events == AlarmEvents(OperationTimeReached(MAX_OPERATION_HOURS, TruncDiv(total, 1000)))) &&
      (0 <= total <= maxHours * MS_PER_HOUR ==>
        c.result == total / MS_PER_HOUR && c.result <= maxHours)
    ensures maxHours >= 0 ==>
      OperationHoursCheck(maxHours * MS_PER_HOUR, maxHours) == Check(maxHours, [])
  {
    if 0 <= total <= maxHours * MS_PER_HOUR {
      TruncDivOfNatural(total, MS_PER_HOUR);
      assert total / MS_PER_HOUR <= maxHours by {
        DivMonotone(total, maxHours * MS_PER_HOUR, MS_PER_HOUR);
      }
      assert InInt32(total / MS_PER_HOUR);
    }
    if maxHours >= 0 {
      HoursRoundTrip(maxHours);
    }
  }

  lemma DivMonotone(a: int, b: int, d: int)
    requires 0 <= a <= b && d > 0
    ensures a / d <= b / d
  {
    var qa, qb := a / d, b / d;
    QuotientBounds(a, d);
    QuotientBounds(b, d);
    if qa > qb {
      MulAtLeast(d, qa - qb);
      assert false;
    }
  }

  /** The alarm text always names the compile-time maximum of 500 hours,
      even when the limit in use was changed. */
  lemma AlarmNamesCompiledMaximum(total: int, maxHours: int)
    requires total > maxHours * MS_PER_HOUR
    ensures var m := OperationHoursCheck(total, maxHours).events[0].message;
      Text(m)[..33] == "The maximum operation time (500h)"
  {
    var m := OperationHoursCheck(total, maxHours).events[0].message;
    assert DecimalDigits(500) == "500" by {
      assert DecimalDigits(5) == "5";
      assert DecimalDigits(50) == "50";
    }
    assert Text(m)[..33] == "The maximum operation time (" + "500" + "h)";
  }

  /** EXIT_FAILURE is also a legitimate answer: one hour of operation and a
      failed check return the same number, and so do a battery at 1 % that
      passes a minimum of 1 and a battery at 0 % that fails it. */
  lemma ExitFailureIsAmbiguous(maxHours: int)
    requires maxHours >= 1 && InInt32(maxHours * MS_PER_HOUR)
    ensures OperationHoursCheck(MS_PER_HOUR, maxHours) == Check(EXIT_FAILURE, [])
    ensures OperationHoursCheck(maxHours * MS_PER_HOUR + 1, maxHours).result == EXIT_FAILURE
    ensures BatteryCheck(1, 1) == Check(EXIT_FAILURE, [])
    ensures BatteryCheck(0, 1).result == EXIT_FAILURE && BatteryCheck(0, 1).events != []
  {
    TruncDivOfNatural(MS_PER_HOUR, MS_PER_HOUR);
  }

  /** The battery alarm fires exactly below the minimum; otherwise the level
      is returned unchanged, so a level equal to the minimum passes. */
  lemma BatteryThreshold(level: int, minLoad: int)
    ensures var c := BatteryCheck(level, minLoad);
      (c.events != [] <==> level < minLoad) &&
      (level < minLoad ==> c.result == EXIT_FAILURE && c.events == AlarmEvents(BatteryTooLow(level))) &&
      (level >= minLoad ==> c.result == level)
    ensures BatteryCheck(minLoad, minLoad) == Check(minLoad, [])
  {
  }

  /** checkScheduler alarms exactly when the scheduler's timer is not
      running. */
  lemma SchedulerAlarm(status: bool)
    ensures SchedulerEvents(status) != [] <==> !status
    ensures !status ==> Log(Critical, SchedulerCritical) in SchedulerEvents(status)
  {
  }

  class ControlSystem {
    var schouldRun: bool
    var batteryMinLoad: int
    var maxOperationHours: int
    const theTracer: Tracer
    const thePump: Pump
    const theScheduler: Scheduler

    /** Sets the defaults and builds the pump, its scheduler and the tracer;
        `persisted` is the settings file, `now` the clock at start-up. */
    constructor (cfg: Config, persisted: map<string, int>, now: int)
      ensures schouldRun && batteryMinLoad == BATTERY_MIN_LOAD && maxOperationHours == MAX_OPERATION_HOURS
      ensures fresh(theTracer) && fresh(thePump) && fresh(theScheduler)
      ensures thePump.tracer == theTracer && theScheduler.thePump == thePump
      ensures theTracer.events == []
      ensures theScheduler.GetStatus() && theScheduler.timerStart == now
      ensures theScheduler.totalOperationTime == StoredTotal(persisted)
    {
      schouldRun := true;
      batteryMinLoad := BATTERY_MIN_LOAD;
      maxOperationHours := MAX_OPERATION_HOURS;
      var tracer := new Tracer();
      var pump := new Pump(tracer, cfg);
      theScheduler := new Scheduler(pump, persisted, now);
      thePump := pump;
      theTracer := tracer;
    }

    /** The alarm of a failed check. */
    method RaiseAlarm(m: Message)
      modifies theTracer
      ensures theTracer.events == old(theTracer.events) + AlarmEvents(m)
    {
      theTracer.WriteCriticalLog(m);
      theTracer.PlayAcousticWarning();
      theTracer.VibrationWarning();
    }

    /** checkOperationHours: reads the total through getOperationTime, which
        adds the elapsed time to it, then compares it with the maximum. The
        product `MaxOperationHours*60*60*1000` is computed in int. */
    method CheckOperationHours(now: int) returns (result: int)
      requires theScheduler.timerValid && theScheduler.timerStart <= now
      requires InInt32(maxOperationHours * MS_PER_HOUR)
      modifies theScheduler`totalOperationTime, theTracer
      ensures theScheduler.totalOperationTime
           == old(theScheduler.totalOperationTime) + theScheduler.Elapsed(now)
      ensures var c := OperationHoursCheck(theScheduler.totalOperationTime, maxOperationHours);
        result == c.result && theTracer.events == old(theTracer.events) + c.events
    {
      var operationTime := theScheduler.GetOperationTime(now);
      if operationTime > maxOperationHours * 60 * 60 * 1000 {
        RaiseAlarm(OperationTimeReached(MAX_OPERATION_HOURS, TruncDiv(operationTime, 1000)));
        return EXIT_FAILURE;
      }
      HoursByStages(operationTime);
      return WrapInt32(TruncDiv(TruncDiv(TruncDiv(operationTime, 60), 60), 1000));
    }

    /** checkScheduler: the scheduler's status, with an alarm when it is
        false. */
    method CheckScheduler() returns (ok: bool)
      modifies theTracer
      ensures ok == theScheduler.GetStatus()
      ensures theTracer.events == old(theTracer.events) + SchedulerEvents(ok)
    {
      if !theScheduler.GetStatus() {
        RaiseAlarm(SchedulerCritical);
        return false;
      }
      return true;
    }

    /** checkPump: the pump's status, which is constantly true, so the check
        always passes and reports nothing. */
    method CheckPump() returns (ok: bool)
      ensures ok
    {
      ok := thePump.GetPumpStatus();
    }

    /** checkBatteryStatus on the battery level `batteryStatus`. */
    method CheckBatteryStatus(batteryStatus: int) returns (result: int)
      modifies theTracer
      ensures var c := BatteryCheck(batteryStatus, batteryMinLoad);
        result == c.result && theTracer.events == old(theTracer.events) + c.events
    {
      if batteryStatus < batteryMinLoad {
        RaiseAlarm(BatteryTooLow(batteryStatus));
        return EXIT_FAILURE;
      }
      return batteryStatus;
    }

    function GetBatteryMinLoad(): int
      reads this
    {
      batteryMinLoad
    }

    method SetBatteryMinLoad(value: int)
      modifies this`batteryMinLoad
      ensures GetBatteryMinLoad() == value
    {
      batteryMinLoad := value;
    }

    function GetMaxOperationHours(): int
      reads this
    {
      maxOperationHours
    }

    method SetMaxOperationHours(value: int)
      modifies this`maxOperationHours
      ensures GetMaxOperationHours() == value
    {
      maxOperationHours := value;
    }

    function GetSchouldRun(): bool
      reads this
    {
      schouldRun
    }

    method SetSchouldRun(value: bool)
      modifies this`schouldRun
      ensures GetSchouldRun() == value
    {
      schouldRun := value;
    }
  }
}
