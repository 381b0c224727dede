/** The schedule monitor (src/components/Scheduler.tsx): one polling tick
    decides whether to fire the automatic run, maintains the once-per-day
    guard and computes the countdown to the next 08:00; the manual button is
    enabled only while no run is in progress. Wall-clock time is the number
    of milliseconds since local midnight. */
module Scheduler {
  import opened Wrappers
  import opened Types

  const MinuteMs: int := 60000
  const HourMs: int := 3600000
  const DayMs: int := 86400000
  const TriggerHour: int := 8
  /** The polling period of `setInterval`. */
  const TickMs: int := 10000

  predicate ValidTime(t: int)
  {
    0 <= t < DayMs
  }

  /** `getHours()` of a time of day. */
  function HourOf(t: int): int
    requires ValidTime(t)
  {
    t / HourMs
  }

  /** `getMinutes()` of a time of day. */
  function MinuteOf(t: int): int
    requires ValidTime(t)
  {
    (t / MinuteMs) % 60
  }

  /** The one-minute window `getHours() === 8 && getMinutes() === 0`. */
  predicate InTriggerWindow(t: int)
    requires ValidTime(t)
  {
    HourOf(t) == TriggerHour && MinuteOf(t) == 0
  }

  /** The one-minute window `getHours() === 0 && getMinutes() === 0`. */
  predicate InMidnightWindow(t: int)
    requires ValidTime(t)
  {
    HourOf(t) == 0 && MinuteOf(t) == 0
  }

  /** The two windows are the minutes starting at 08:00 and at 00:00. */
  lemma WindowBounds(t: int)
    requires ValidTime(t)
    ensures InTriggerWindow(t) <==> TriggerHour * HourMs <= t < TriggerHour * HourMs + MinuteMs
    ensures InMidnightWindow(t) <==> t < MinuteMs
  {
  }

  datatype Countdown = Countdown(hours: int, minutes: int)

  /** The effect of one `checkSchedule` call. */
  datatype TickResult = TickResult(fire: bool, guard: bool, countdown: Countdown)

  /** Milliseconds from `t` to the next 08:00: today's if the hour is before 8, else tomorrow's. */
  function MsUntilNextRun(t: int): (d: int)
    requires ValidTime(t)
    ensures 0 < d <= DayMs
    ensures (t + d) % DayMs == TriggerHour * HourMs
  {
    var target := if HourOf(t) >= TriggerHour then TriggerHour * HourMs + DayMs else TriggerHour * HourMs;
    target - t
  }

  /** No 08:00 lies strictly between `t` and the target of the countdown. */
  lemma NoEarlierRun(t: int, d: int)
    requires ValidTime(t) && 0 < d < MsUntilNextRun(t)
    ensures (t + d) % DayMs != TriggerHour * HourMs
  {
  }

  /** `${hours}h ${minutes}m` with `hours = floor(diff / 1h)` and
      `minutes = floor((diff % 1h) / 1min)`: the whole hours and minutes of
      the remaining time, rounded down. */
  function CountdownAt(t: int): (c: Countdown)
    requires ValidTime(t)
    ensures 0 <= c.hours <= 24 && 0 <= c.minutes < 60
    ensures c.hours * HourMs + c.minutes * MinuteMs <= MsUntilNextRun(t)
    ensures MsUntilNextRun(t) < c.hours * HourMs + (c.minutes + 1) * MinuteMs
  {
    var diff := MsUntilNextRun(t);
    Countdown(diff / HourMs, (diff % HourMs) / MinuteMs)
  }

  /** At 07:00 the countdown reads "1h 0m"; at 08:01 it reads "23h 59m". */
  lemma CountdownExamples()
    ensures CountdownAt(7 * HourMs) == Countdown(1, 0)
    ensures CountdownAt(8 * HourMs + MinuteMs) == Countdown(23, 59)
  {
  }

  /** `status === FETCHING || status === SUMMARIZING`. */
  predicate IsProcessing(status: AppStatus): (b: bool)
    ensures b <==> status != IDLE && status != COMPLETED && status != ERROR
  {
    status == FETCHING || status == SUMMARIZING
  }

  /** Which statuses let the 08:00 tick start a run: the source's
      `status === AppStatus.IDLE`, or any status with no run in flight. */
  datatype TriggerGate = IdleOnly | NotProcessing

  predicate MayStart(gate: TriggerGate, status: AppStatus)
  {
    match gate
    case IdleOnly => status == IDLE
    case NotProcessing => !IsProcessing(status)
  }

  /** One `checkSchedule` tick at time `t`, seeing `status` and the guard
      `hasTriggeredToday`; the source's tick is the one with gate `IdleOnly`. */
  function Tick(gate: TriggerGate, t: int, status: AppStatus, guard: bool): (r: TickResult)
    requires ValidTime(t)
    ensures r.fire <==> InTriggerWindow(t) && !guard && MayStart(gate, status)
    ensures gate == IdleOnly ==> (r.fire <==> InTriggerWindow(t) && !guard && status == IDLE)
    ensures r.fire ==> r.guard
    ensures !guard && r.guard ==> r.fire
    ensures guard && !r.guard ==> InMidnightWindow(t)
    ensures InMidnightWindow(t) ==> !r.guard
    ensures r.countdown == CountdownAt(t)
  {
    var fire := HourOf(t) == TriggerHour && MinuteOf(t) == 0 && !guard && MayStart(gate, status);
    var armed := if fire then true else guard;
    var reset := if HourOf(t) == 0 && MinuteOf(t) == 0 then false else armed;
    TickResult(fire, reset, CountdownAt(t))
  }

  /** A tick of the simulation: its time and the status the component sees then. */
  datatype Observation = Observation(t: int, status: AppStatus)

  /** The times at which the automatic run fired, and the guard at the end. */
  datatype DayLog = DayLog(fired: seq<int>, guard: bool)

  predicate AllValid(obs: seq<Observation>)
  {
    forall i :: 0 <= i < |obs| ==> ValidTime(obs[i].t)
  }

  /** Ticks in strictly increasing order within one day. */
  predicate Chronological(obs: seq<Observation>)
  {
    AllValid(obs) && forall i, j :: 0 <= i < j < |obs| ==> obs[i].t < obs[j].t
  }

  /** Runs the ticks in order, threading the guard. */
  function RunTicks(gate: TriggerGate, obs: seq<Observation>, guard: bool): (log: DayLog)
    requires AllValid(obs)
    ensures |log.fired| <= |obs|
    ensures forall k :: 0 <= k < |log.fired| ==> ValidTime(log.fired[k]) && InTriggerWindow(log.fired[k])
  {
    if |obs| == 0 then DayLog([], guard)
    else
      var r := Tick(gate, obs[0].t, obs[0].status, guard);
      var rest := RunTicks(gate, obs[1..], r.guard);
      DayLog((if r.fire then [obs[0].t] else []) + rest.fired, rest.guard)
  }

  /** With the guard set and no tick in the midnight minute, nothing fires and the guard stays set. */
  lemma {:induction false} GuardedTicksNeverFire(gate: TriggerGate, obs: seq<Observation>)
    requires AllValid(obs)
    requires forall i :: 0 <= i < |obs| ==> !InMidnightWindow(obs[i].t)
    ensures RunTicks(gate, obs, true) == DayLog([], true)
  {
    if |obs| > 0 {
      GuardedTicksNeverFire(gate, obs[1..]);
    }
  }

  /** Over one day of ticks the automatic run fires at most once, whatever the
      statuses and the initial guard. */
  lemma {:induction false} AtMostOncePerDay(gate: TriggerGate, obs: seq<Observation>, guard: bool)
    requires Chronological(obs)
    ensures |RunTicks(gate, obs, guard).fired| <= 1
  {
    if |obs| > 0 {
      var r := Tick(gate, obs[0].t, obs[0].status, guard);
      if r.fire {
        forall i | 0 <= i < |obs[1..]| ensures !InMidnightWindow(obs[1..][i].t) {
          assert obs[1..][i] == obs[i + 1];
          WindowBounds(obs[0].t);
          WindowBounds(obs[i + 1].t);
        }
        GuardedTicksNeverFire(gate, obs[1..]);
      } else {
        AtMostOncePerDay(gate, obs[1..], r.guard);
      }
    }
  }

  /** With the guard clear, a day fires exactly once, at the first tick of
      the 08:00 minute whose status the gate accepts: earlier ticks of that
      minute that see a busy status are skipped, not remembered. */
  lemma {:induction false} ExactlyOnceWhenStartable(gate: TriggerGate, obs: seq<Observation>, w: int)
    requires Chronological(obs)
    requires 0 <= w < |obs| && InTriggerWindow(obs[w].t) && MayStart(gate, obs[w].status)
    requires forall i :: 0 <= i < w ==> !(InTriggerWindow(obs[i].t) && MayStart(gate, obs[i].status))
    ensures RunTicks(gate, obs, false).fired == [obs[w].t]
  {
    var r := Tick(gate, obs[0].t, obs[0].status, false);
    if w == 0 {
      forall i | 0 <= i < |obs[1..]| ensures !InMidnightWindow(obs[1..][i].t) {
        assert obs[1..][i] == obs[i + 1];
        WindowBounds(obs[0].t);
        WindowBounds(obs[i + 1].t);
      }
      GuardedTicksNeverFire(gate, obs[1..]);
    } else {
      assert !r.fire && !r.guard;
      ExactlyOnceWhenStartable(gate, obs[1..], w - 1);
    }
  }

  /** If no tick of the 08:00 minute sees a status the gate accepts, the
      automatic run does not fire that day: there is no catch-up. */
  lemma {:induction false} NoCatchUp(gate: TriggerGate, obs: seq<Observation>, guard: bool)
    requires AllValid(obs)
    requires forall i :: 0 <= i < |obs| && InTriggerWindow(obs[i].t) ==> !MayStart(gate, obs[i].status)
    ensures RunTicks(gate, obs, guard).fired == []
  {
    if |obs| > 0 {
      var r := Tick(gate, obs[0].t, obs[0].status, guard);
      NoCatchUp(gate, obs[1..], r.guard);
    }
  }

  /** The ticks of one day polled every ten seconds, starting `phase` ms after
      midnight, each seeing `status`. */
  function TenSecondDay(phase: int, status: AppStatus): (obs: seq<Observation>)
    requires 0 <= phase < TickMs
    ensures |obs| == DayMs / TickMs
    ensures Chronological(obs)
    ensures forall i :: 0 <= i < |obs| ==> obs[i].status == status
    ensures forall k :: 0 <= k < |obs| ==> obs[k].t == phase + k * TickMs
  {
    seq(DayMs / TickMs, k => Observation(phase + k * TickMs, status))
  }

  /** A whole day of ten-second ticks whose status the gate accepts, with the
      guard initially clear, fires exactly one automatic run, at the first
      tick after 08:00. */
  lemma OneRunPerPolledDay(gate: TriggerGate, phase: int, status: AppStatus)
    requires 0 <= phase < TickMs && MayStart(gate, status)
    ensures RunTicks(gate, TenSecondDay(phase, status), false).fired == [TriggerHour * HourMs + phase]
  {
    var obs := TenSecondDay(phase, status);
    var w := TriggerHour * HourMs / TickMs;
    assert obs[w].t == TriggerHour * HourMs + phase;
    WindowBounds(obs[w].t);
    forall i | 0 <= i < w ensures !InTriggerWindow(obs[i].t) {
      WindowBounds(obs[i].t);
    }
    ExactlyOnceWhenStartable(gate, obs, w);
  }

  /** As written, a day whose status is settled (COMPLETED or ERROR) at every
      tick fires nothing: the 08:00 trigger waits for IDLE. */
  lemma SettledDayNeverFires(obs: seq<Observation>, guard: bool)
    requires AllValid(obs)
    requires forall i :: 0 <= i < |obs| ==> obs[i].status == COMPLETED || obs[i].status == ERROR
    ensures RunTicks(IdleOnly, obs, guard).fired == []
  {
  }

  /** A press of the manual button: `None` while it is disabled, otherwise the
      argument passed to `onRunNow`. */
  function PressRunNow(status: AppStatus): (r: Option<bool>)
    ensures r.Some? <==> status != FETCHING && status != SUMMARIZING
    ensures r.Some? ==> !r.value
  {
    if IsProcessing(status) then None else Some(false)
  }
}
