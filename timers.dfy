/**
  The `Timer` record: a duration and a start time, both in nanoseconds (a Go
  `time.Duration` and the instant read from the clock), and the arithmetic the
  bot does on them. The current time is always passed in as `now`.
 */
module Timers {

  /** `time.Second` in nanoseconds. */
  const Second: int := 1_000_000_000

  datatype Timer = Timer(duration: int, start: int)

  /** A timer of `mins` minutes started at `now`. */
  function Started(mins: int, now: int): (t: Timer)
    ensures t.start == now
    ensures t.duration == mins * 60 * Second
  {
    Timer(mins * 60 * Second, now)
  }

  /** The remaining time shown to the user: duration minus time since start, never clamped. */
  function Remaining(t: Timer, now: int): (r: int)
    ensures now == t.start ==> r == t.duration
    ensures now >= t.start + t.duration ==> r <= 0
    ensures now <= t.start + t.duration ==> r >= 0
  {
    t.duration - (now - t.start)
  }

  /** Stop: the duration becomes what was remaining at `now`; the start time is kept. */
  function Stopped(t: Timer, now: int): (r: Timer)
    ensures r.duration == Remaining(t, now) && r.start == t.start
  {
    t.(duration := Remaining(t, now))
  }

  /** Restart: the stored duration is kept and the timer starts again at `now`. */
  function Restarted(t: Timer, now: int): (r: Timer)
    ensures r.duration == t.duration && r.start == now
  {
    t.(start := now)
  }

  /** A stretch of time the timer ran: from a (re)start to the following stop. */
  datatype Run = Run(from: int, to: int)

  function TotalRunning(runs: seq<Run>): int {
    if runs == [] then 0 else (runs[0].to - runs[0].from) + TotalRunning(runs[1..])
  }

  /** The timer after it was (re)started and stopped once for each run, in order. */
  function Replay(t: Timer, runs: seq<Run>): Timer
    decreases runs
  {
    if runs == [] then t else Replay(Stopped(Restarted(t, runs[0].from), runs[0].to), runs[1..])
  }

  /**
    Whatever sequence of restarts and stops a timer goes through, its duration
    is the original duration minus the total time it ran, and it remembers the
    last restart as its start time.
   */
  lemma {:induction false} ReplayConservesDuration(t: Timer, runs: seq<Run>)
    ensures Replay(t, runs).duration == t.duration - TotalRunning(runs)
    ensures runs != [] ==> Replay(t, runs).start == runs[|runs| - 1].from
    ensures runs == [] ==> Replay(t, runs) == t
    decreases runs
  {
    if runs != [] {
      var next := Stopped(Restarted(t, runs[0].from), runs[0].to);
      ReplayConservesDuration(next, runs[1..]);
      if |runs| > 1 {
        assert runs[1..][|runs[1..]| - 1] == runs[|runs| - 1];
      }
    }
  }

  /**
    A pomodoro of `mins` minutes created at `begin` and then run `runs` (the
    first run starts at `begin`; the statement holds whatever the runs are).
   */
  lemma PomodoroAccounting(mins: int, begin: int, runs: seq<Run>)
    ensures Replay(Started(mins, begin), runs).duration == mins * 60 * Second - TotalRunning(runs)
  {
    ReplayConservesDuration(Started(mins, begin), runs);
  }

  /**
    A stop stores exactly the remaining time, so a stop followed by a restart
    at the same instant leaves the remaining time unchanged; asked for at the
    stop instant itself, the stopped timer subtracts the run once more.
   */
  lemma StopStoresRemaining(t: Timer, now: int)
    ensures Remaining(Restarted(Stopped(t, now), now), now) == Remaining(t, now)
    ensures Remaining(Stopped(t, now), now) == Remaining(t, now) - (now - t.start)
  {
  }

  /**
    A stopped timer keeps its old start time, so asking for the remaining time
    while it is stopped subtracts the run before the stop a second time and
    keeps falling as time passes.
   */
  lemma RemainingWhileStopped(t: Timer, stop: int, now: int)
    requires t.start <= stop <= now
    ensures Remaining(Stopped(t, stop), now) == Remaining(t, stop) - (now - t.start)
    ensures Remaining(Stopped(t, stop), now) <= Remaining(t, stop)
  {
  }

  /**
    Restarting a timer that is still running keeps the full stored duration:
    the time it already ran is not deducted.
   */
  lemma RestartDiscardsElapsed(t: Timer, now: int)
    ensures Remaining(Restarted(t, now), now) == t.duration
    ensures Remaining(Restarted(t, now), now) == Remaining(t, now) + (now - t.start)
  {
  }

  /** Past the deadline the remaining time is negative: there is no clamping at zero. */
  lemma RemainingGoesNegative(t: Timer, now: int)
    requires now > t.start + t.duration
    ensures Remaining(t, now) < 0
  {
  }
}
