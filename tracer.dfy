/** The Tracer as the controller sees it: an append-only record of what was
    reported. Each log call adds one entry at its level; the acoustic and
    vibration alarms are recorded as events of their own. Timestamps, the log
    file and the user-interface echo are not modelled.

    The messages are recorded by kind, with the numbers they carry; `Text`
    gives the exact wording the source writes for each. */
module Tracing {
  import opened Decimal

  datatype Level = Status | Warning | Critical

  /** Every message the pump and the health checks write. */
  datatype Message =
    | PowerDrainTooHigh
    | BatteryNotCharged
    | NoBodyFound
    | ReservoirTooLow(insulin: bool)
    | ReservoirEmpty(insulin: bool)
    | ReservoirNearlyEmpty(insulin: bool)
    | OperationTimeReached(maxHours: int, seconds: int)
    | SchedulerCritical
    | BatteryTooLow(percent: int)

  datatype Event =
    | Log(level: Level, message: Message)
    | Beep
    | Vibration

  function HormoneName(insulin: bool): string {
    if insulin then "Insulin" else "Glucagon"
  }

  /** The text the source writes for a message. */
  function Text(m: Message): string {
    match m
    case PowerDrainTooHigh => "Power drainage too high!"
    case BatteryNotCharged => "Insufficient Power! Battery not charged!"
    case NoBodyFound => "No body found!"
    case ReservoirTooLow(insulin) =>
      HormoneName(insulin) + " reservoir too low to inject proper amount!"
    case ReservoirEmpty(insulin) =>
      "CRITICAL! " + HormoneName(insulin) + " reservoir empty! Please refill!"
    case ReservoirNearlyEmpty(insulin) =>
      "Warning! " + HormoneName(insulin) + " reservoir nearly empty! Please refill!"
    case OperationTimeReached(maxHours, seconds) =>
      "The maximum operation time (" + IntToString(maxHours) + "h) is reached ("
        + IntToString(seconds) + "sec)."
    case SchedulerCritical => "The scheduler is in a critical state."
    case BatteryTooLow(percent) =>
      "The batteries charging state is to low (" + IntToString(percent) + "%)."
  }

  /** The two fill-level alerts are told apart by their first word, and a
      different hormone gives a different text. */
  lemma AlertTexts(insulin: bool)
    ensures Text(ReservoirEmpty(insulin))[..10] == "CRITICAL! "
    ensures Text(ReservoirNearlyEmpty(insulin))[..9] == "Warning! "
    ensures Text(ReservoirEmpty(insulin)) != Text(ReservoirEmpty(!insulin))
    ensures Text(ReservoirNearlyEmpty(insulin)) != Text(ReservoirNearlyEmpty(!insulin))
  {
    var e, e' := Text(ReservoirEmpty(insulin)), Text(ReservoirEmpty(!insulin));
    assert e[10] != e'[10];
    var w, w' := Text(ReservoirNearlyEmpty(insulin)), Text(ReservoirNearlyEmpty(!insulin));
    assert w[9] != w'[9];
  }

  /** Appending to a log in two steps is appending the two parts at once. */
  lemma AppendTwice(log: seq<Event>, first: seq<Event>, second: seq<Event>)
    ensures (log + first) + second == log + (first + second)
  {
  }

  class Tracer {
    /** Everything reported so far, oldest first. */
    ghost var events: seq<Event>

    constructor ()
      ensures events == []
    {
      events := [];
    }

    method WriteStatusLog(message: Message)
      modifies this
      ensures events == old(events) + [Log(Status, message)]
    {
      events := events + [Log(Status, message)];
    }

    method WriteWarningLog(message: Message)
      modifies this
      ensures events == old(events) + [Log(Warning, message)]
    {
      events := events + [Log(Warning, message)];
    }

    method WriteCriticalLog(message: Message)
      modifies this
      ensures events == old(events) + [Log(Critical, message)]
    {
      events := events + [Log(Critical, message)];
    }

    method PlayAcousticWarning()
      modifies this
      ensures events == old(events) + [Beep]
    {
      events := events + [Beep];
    }

    method VibrationWarning()
      modifies this
      ensures events == old(events) + [Vibration]
    {
      events := events + [Vibration];
    }
  }
}
