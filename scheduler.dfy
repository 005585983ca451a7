/** The scheduler (Scheduler.cpp): it triggers the pump and keeps the total
    operation time in milliseconds.

    The QElapsedTimer is a validity flag and the clock reading at which it
    was started; every operation that reads the timer takes the current
    clock reading `now` as a parameter, so `elapsed()` is `now - timerStart`.
    The QSettings file is a map from "group/key" to the stored number. */
module Scheduling {
  import opened CInt
  import opened Dosing
  import opened PumpUnit

  /** The settings key of the total: "TotalOperationTime" in group
      "InsulinPump". */
  const TOTAL_OPERATION_TIME_KEY := "InsulinPump/TotalOperationTime"

  /** Milliseconds per hour, the factor 60*60*1000 of the source. */
  const MS_PER_HOUR: int := 3_600_000

  /** What `value("TotalOperationTime").toLongLong()` reads: the stored
      number, or 0 when the key is missing. */
  function StoredTotal(store: map<string, int>): int {
    if TOTAL_OPERATION_TIME_KEY in store then store[TOTAL_OPERATION_TIME_KEY] else 0
  }

  /** The store after `setValue("TotalOperationTime", total)`. */
  function Persisted(store: map<string, int>, total: int): map<string, int> {
    store[TOTAL_OPERATION_TIME_KEY := total]
  }

  /** Writing a total and reading it back gives that total, whatever was
      stored before; no other key changes. */
  lemma WriteThenRead(store: map<string, int>, total: int)
    ensures StoredTotal(Persisted(store, total)) == total
    ensures forall k :: k in store && k != TOTAL_OPERATION_TIME_KEY ==> k in Persisted(store, total) && Persisted(store, total)[k] == store[k]
    ensures Persisted(store, total).Keys == store.Keys + {TOTAL_OPERATION_TIME_KEY}
  {
  }

  /** A store that has never been written reads as zero. */
  lemma FreshStoreReadsZero()
    ensures StoredTotal(map[]) == 0
  {
  }

  class Scheduler {
    var schouldRun: bool
    var totalOperationTime: int
    var timerValid: bool
    var timerStart: int
    var saveFile: map<string, int>
    const thePump: Pump

    /** Sets the run flag, reads the persisted total, then starts the
        timer. */
    constructor (pump: Pump, persisted: map<string, int>, now: int)
      ensures thePump == pump && schouldRun
      ensures saveFile == persisted && totalOperationTime == StoredTotal(persisted)
      ensures timerValid && timerStart == now
      ensures GetStatus()
    {
      schouldRun := true;
      totalOperationTime := 0;
      thePump := pump;
      saveFile := persisted;
      new;
      ReadOperationTime();
      var _ := StartOperationTimeCounter(now);
    }

    /** The destructor: stops the timer. */
    method Destroy()
      modifies this`timerValid
      ensures !GetStatus()
    {
      var _ := StopOperationTimeCounter();
    }

    /** getStatus: the scheduler is healthy exactly while the timer runs. */
    function GetStatus(): (status: bool)
      reads this
    {
      timerValid
    }

    /** `Timer.elapsed()` at clock reading `now`. */
    function Elapsed(now: int): int
      reads this
    {
      now - timerStart
    }

    /** getOperationTime: adds the time elapsed since the timer was started
        to the total and returns the new total. The timer is not restarted,
        so the next call adds that time again. */
    method GetOperationTime(now: int) returns (total: int)
      requires timerValid && timerStart <= now
      modifies this`totalOperationTime
      ensures totalOperationTime == old(totalOperationTime) + Elapsed(now)
      ensures totalOperationTime >= old(totalOperationTime)
      ensures total == totalOperationTime
    {
      totalOperationTime := totalOperationTime + (now - timerStart);
      total := totalOperationTime;
    }

    method SetOperationTime(milliseconds: int)
      modifies this`totalOperationTime
      ensures totalOperationTime == milliseconds
    {
      totalOperationTime := milliseconds;
    }

    /** setOperationTimeInHours: `hours*60*60*1000` is computed in int, so
        the product must fit 32 bits (|hours| <= 596). */
    method SetOperationTimeInHours(hours: int)
      requires InInt32(hours * MS_PER_HOUR)
      modifies this`totalOperationTime
      ensures totalOperationTime == hours * MS_PER_HOUR
      ensures TruncDiv(totalOperationTime, MS_PER_HOUR) == hours
    {
      totalOperationTime := hours * 60 * 60 * 1000;
      HoursRoundTrip(hours);
    }

    /** triggerPump: one pump cycle; its result is runPump's. */
    method TriggerPump(reading: int) returns (ok: bool)
      requires thePump.Valid() && thePump.hormoneSensitivityFactor != 0
      modifies thePump, thePump.tracer
      ensures thePump.Valid()
      ensures var r := RunCycle(old(thePump.State()), thePump.Thresholds(), reading);
        ok == r.ok && thePump.State() == r.state &&
        thePump.tracer.events == old(thePump.tracer.events) + r.events &&
        thePump.sentToBody == old(thePump.sentToBody) + r.sent
    {
      var ran := thePump.RunPump(reading);
      if !ran {
        return false;
      }
      return true;
    }

    /** saveOperationTime: updates the total, writes it to the settings and
        reports the whole hours (the value signalled to the user interface).
        Always succeeds. */
    method SaveOperationTime(now: int) returns (ok: bool, reportedHours: int)
      requires timerValid && timerStart <= now
      modifies this`totalOperationTime, this`saveFile
      ensures ok
      ensures totalOperationTime == old(totalOperationTime) + Elapsed(now)
      ensures saveFile == Persisted(old(saveFile), totalOperationTime)
      ensures StoredTotal(saveFile) == totalOperationTime
      ensures reportedHours == TruncDiv(totalOperationTime, MS_PER_HOUR)
    {
      var _ := GetOperationTime(now);
      WriteOperationTime();
      reportedHours := TruncDiv(TruncDiv(TruncDiv(totalOperationTime, 60), 60), 1000);
      HoursByStages(totalOperationTime);
      WriteThenRead(old(saveFile), totalOperationTime);
      ok := true;
    }

    method StartOperationTimeCounter(now: int) returns (ok: bool)
      modifies this`timerValid, this`timerStart
      ensures ok && timerValid && timerStart == now
    {
      timerValid := true;
      timerStart := now;
      ok := true;
    }

    method StopOperationTimeCounter() returns (ok: bool)
      modifies this`timerValid
      ensures ok && !timerValid
    {
      timerValid := false;
      ok := true;
    }

    method ReadOperationTime()
      modifies this`totalOperationTime
      ensures totalOperationTime == StoredTotal(saveFile)
    {
      if TOTAL_OPERATION_TIME_KEY in saveFile {
        totalOperationTime := saveFile[TOTAL_OPERATION_TIME_KEY];
      } else {
        totalOperationTime := 0;
      }
    }

    method WriteOperationTime()
      modifies this`saveFile
      ensures saveFile == Persisted(old(saveFile), totalOperationTime)
    {
      saveFile := saveFile[TOTAL_OPERATION_TIME_KEY := totalOperationTime];
    }

    function GetSchouldRun(): bool
      reads this
    {
      schouldRun
    }

    method SetSchouldRun(value: bool)
      modifies this`schouldRun
      ensures GetSchouldRun() == value
    {
      schouldRun := value;
    }

    /** One pass of the scheduler thread: trigger the pump, then save the
        operation time. */
    method Tick(reading: int, now: int) returns (ok: bool)
      requires thePump.Valid() && thePump.hormoneSensitivityFactor != 0
      requires timerValid && timerStart <= now
      modifies this`totalOperationTime, this`saveFile, thePump, thePump.tracer
      ensures thePump.Valid()
      ensures var r := RunCycle(old(thePump.State()), thePump.Thresholds(), reading);
        ok == r.ok && thePump.State() == r.state &&
        thePump.tracer.events == old(thePump.tracer.events) + r.events &&
        thePump.sentToBody == old(thePump.sentToBody) + r.sent
      ensures totalOperationTime == old(totalOperationTime) + Elapsed(now)
      ensures saveFile == Persisted(old(saveFile), totalOperationTime)
      ensures StoredTotal(saveFile) == totalOperationTime
    {
      ok := TriggerPump(reading);
      var _, _ := SaveOperationTime(now);
    }
  }

  /** getOperationTime called at each clock reading in `times`, in order,
      with the timer left running: the total follows TotalAfterCalls. */
  method ReadRepeatedly(sched: Scheduler, times: seq<int>)
    requires sched.timerValid
    requires forall i :: 0 <= i < |times| ==> times[i] >= sched.timerStart
    modifies sched`totalOperationTime
    ensures sched.totalOperationTime == TotalAfterCalls(old(sched.totalOperationTime), sched.timerStart, times)
  {
    var i := 0;
    while i < |times|
      invariant 0 <= i <= |times|
      invariant sched.totalOperationTime == TotalAfterCalls(old(sched.totalOperationTime), sched.timerStart, times[..i])
    {
      assert times[..i + 1][..i] == times[..i];
      var _ := sched.GetOperationTime(times[i]);
      i := i + 1;
    }
    assert times[..i] == times;
  }

  /** n reads of the operation time, one every `interval` milliseconds
      after the start: the total grows by n * (n + 1) / 2 intervals and,
      from the second read on, by more than the time that passed. */
  method ReadAtSteadyPace(sched: Scheduler, interval: nat, n: nat)
    requires sched.timerValid
    modifies sched`totalOperationTime
    ensures 2 * (sched.totalOperationTime - old(sched.totalOperationTime)) == (n * (n + 1)) * interval
    ensures n >= 2 && interval > 0 ==> sched.totalOperationTime > old(sched.totalOperationTime) + n * interval
  {
    var total0 := sched.totalOperationTime;
    var ticks := EvenTicks(sched.timerStart, interval, n);
    forall i | 0 <= i < |ticks| ensures ticks[i] >= sched.timerStart {
      MulLe(interval, 0, i + 1);
    }
    ReadRepeatedly(sched, ticks);
    EvenTicksTotal(total0, sched.timerStart, interval, n);
    if n >= 2 && interval > 0 {
      OverCounting(total0, sched.timerStart, interval, n);
    }
  }

  /** Whole hours written as milliseconds and divided back give the hours. */
  lemma HoursRoundTrip(hours: int)
    ensures TruncDiv(hours * MS_PER_HOUR, MS_PER_HOUR) == hours
  {
    var q := TruncDiv(hours * MS_PER_HOUR, MS_PER_HOUR);
    if hours >= 0 {
      TruncDivOfNatural(hours * MS_PER_HOUR, MS_PER_HOUR);
    } else {
      assert Abs(hours * MS_PER_HOUR) == (-hours) * MS_PER_HOUR;
      TruncDivOfNatural((-hours) * MS_PER_HOUR, MS_PER_HOUR);
    }
  }

  // ---------------------------------------------------------------------
  // Repeated getOperationTime calls

  /** The total after getOperationTime is called at each clock reading in
      `times`, in order, with the timer started at `start` and never
      restarted. */
  function TotalAfterCalls(total: int, start: int, times: seq<int>): int
    decreases |times|
  {
    if times == [] then total
    else TotalAfterCalls(total, start, times[..|times| - 1]) + (times[|times| - 1] - start)
  }

  /** Calls at clock readings no earlier than the start never lower the
      total: each call adds a non-negative amount. */
  lemma {:induction false} TotalNeverDecreases(total: int, start: int, times: seq<int>)
    requires forall i :: 0 <= i < |times| ==> times[i] >= start
    ensures TotalAfterCalls(total, start, times) >= total
    ensures forall t :: t >= start ==> TotalAfterCalls(total, start, times + [t]) >= TotalAfterCalls(total, start, times)
    decreases |times|
  {
    if times != [] {
      TotalNeverDecreases(total, start, times[..|times| - 1]);
    }
    forall t | t >= start
      ensures TotalAfterCalls(total, start, times + [t]) >= TotalAfterCalls(total, start, times)
    {
      assert (times + [t])[..|times|] == times;
    }
  }

  /** Clock readings start + interval, start + 2*interval, ...,
      start + n*interval: the scheduler thread's pace. */
  function EvenTicks(start: int, interval: nat, n: nat): (ticks: seq<int>)
    ensures |ticks| == n
    ensures forall i :: 0 <= i < n ==> ticks[i] == start + (i + 1) * interval
  {
    if n == 0 then [] else EvenTicks(start, interval, n - 1) + [start + n * interval]
  }

  /** n calls at a steady interval add n * (n + 1) / 2 intervals, not the
      n intervals that actually elapsed: every call counts the whole time
      since the start again. */
  lemma {:induction false} EvenTicksTotal(total: int, start: int, interval: nat, n: nat)
    ensures 2 * (TotalAfterCalls(total, start, EvenTicks(start, interval, n)) - total)
         == (n * (n + 1)) * interval
  {
    if n > 0 {
      EvenTicksTotal(total, start, interval, n - 1);
      LastTick(total, start, interval, n);
      TriangleStep(TotalAfterCalls(total, start, EvenTicks(start, interval, n - 1)) - total, n, interval);
    }
  }

  /** The n-th call at a steady interval adds n intervals. */
  lemma LastTick(total: int, start: int, interval: nat, n: nat)
    requires n > 0
    ensures TotalAfterCalls(total, start, EvenTicks(start, interval, n))
         == TotalAfterCalls(total, start, EvenTicks(start, interval, n - 1)) + n * interval
  {
    var ticks := EvenTicks(start, interval, n);
    assert ticks[..n - 1] == EvenTicks(start, interval, n - 1);
  }

  lemma TriangleStep(before: int, n: int, interval: int)
    requires 2 * before == ((n - 1) * n) * interval
    ensures 2 * (before + n * interval) == (n * (n + 1)) * interval
  {
    assert n * (n + 1) == (n - 1) * n + 2 * n;
    Distribute((n - 1) * n, 2 * n, interval);
  }

  /** From the second call on, the total runs ahead of the time that
      actually passed. */
  lemma OverCounting(total: int, start: int, interval: nat, n: nat)
    requires n >= 2 && interval > 0
    ensures TotalAfterCalls(total, start, EvenTicks(start, interval, n)) > total + n * interval
  {
    EvenTicksTotal(total, start, interval, n);
    TriangleExceeds(TotalAfterCalls(total, start, EvenTicks(start, interval, n)) - total, n, interval);
  }

  lemma TriangleExceeds(d: int, n: int, interval: int)
    requires n >= 2 && interval > 0
    requires 2 * d == (n * (n + 1)) * interval
    ensures d > n * interval
  {
    var extra := n * (n - 1);
    assert n * (n + 1) == 2 * n + extra;
    assert extra > 0 by {
      MulPositive(n, n - 1);
    }
    Distribute(2 * n, extra, interval);
    MulPositive(extra, interval);
  }

  lemma MulPositive(a: int, b: int)
    requires a > 0 && b > 0
    ensures a * b > 0
  {
  }

  lemma Distribute(a: int, b: int, c: int)
    ensures (a + b) * c == a * c + b * c
  {
  }
}
