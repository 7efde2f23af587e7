/**
 * The waiting and killing of scripts/benchmark_ck07r1_lifecycle_scale.py:
 * `_bounded_reap`, `_terminate_and_reap_child`, `_wait_for_child` and the wait part of
 * `_launch_exact`.  Times are whole nanoseconds.  Between any two calls the clock may
 * advance by any amount; a sleep that is not interrupted lasts at least its argument.
 */
module ChildWait {
  import opened Wrappers
  import opened Timing

  const GRACE := 5_000_000_000
  const REAP := 5_000_000_000
  const AGGREGATE := 720_000_000_000

  datatype Signal = SigTerm | SigKill

  /** What `os.wait4` does: `Interrupted(true)` consumes the exit status and still raises. */
  datatype Wait = Running | Exited(status: int) | NoChild | Interrupted(consumed: bool)

  datatype Problem = BadPid | Disappeared | WaitInterrupted | SleepInterrupted | NegativeSleep | NotTerminated

  datatype Reaped = Reaped(pid: int, status: int)

  /** In numbers: 7,201 polls at most before the deadline, and 51 for each of the two signals. */
  lemma PollLimitsAre()
    ensures PollLimit(AGGREGATE) == 7_201 && PollLimit(GRACE) == PollLimit(REAP) == 51
  {
  }

  /** The readings from `start` on are in order, and none is before `earliest`. */
  predicate Later(times: seq<int>, start: nat, earliest: int) {
    forall k :: start <= k < |times| ==> times[k] >= earliest
  }

  /**
   * Of the clock readings of `_wait_for_child`, counted from its deadline's, every fourth
   * is the second one of a round; it is late if it passes a deadline that the first one
   * of its round was still before.
   */
  predicate LateReading(times: seq<int>, start: nat) {
    exists k :: start < k < |times| && IsLate(times, start, k)
  }

  predicate IsLate(times: seq<int>, start: nat, k: nat)
    requires start < k < |times|
  {
    (k - start) % 4 == 0 && times[k - 1] < times[start] + AGGREGATE < times[k]
  }

  /** Further readings are late only if one of them is. */
  lemma LateExtends(before: seq<int>, times: seq<int>, start: nat)
    requires before <= times && start < |before|
    requires forall k :: |before| <= k < |times| ==> !IsLate(times, start, k)
    ensures LateReading(times, start) <==> LateReading(before, start)
  {
    if LateReading(before, start) {
      var k :| start < k < |before| && IsLate(before, start, k);
      assert IsLate(times, start, k);
    }
    if LateReading(times, start) {
      var k :| start < k < |times| && IsLate(times, start, k);
      assert IsLate(before, start, k);
    }
  }

  /** The first three readings of a round are never late. */
  lemma FirstReadings(before: seq<int>, times: seq<int>, start: nat)
    requires before <= times && start < |before| && (|before| - start) % 4 + (|times| - |before|) <= 4
    requires (|before| - start) % 4 > 0
    ensures LateReading(times, start) <==> LateReading(before, start)
  {
    forall k | |before| <= k < |times| ensures !IsLate(times, start, k) {
      assert (k - start) % 4 == (|before| - start) % 4 + (k - |before|);
    }
    LateExtends(before, times, start);
  }

  /** The fourth reading of a round decides, when the third one was before the deadline. */
  lemma SecondReading(before: seq<int>, time: int, start: nat)
    requires start < |before| - 1 && (|before| - start) % 4 == 0
    requires before[|before| - 1] < before[start] + AGGREGATE
    ensures LateReading(before + [time], start) <==> LateReading(before, start) || time > before[start] + AGGREGATE
  {
    var times := before + [time];
    if time > before[start] + AGGREGATE {
      assert IsLate(times, start, |before|);
    } else {
      LateExtends(before, times, start);
    }
  }

  lemma NoReadingYet(times: seq<int>, start: nat)
    requires |times| <= start + 1
    ensures !LateReading(times, start)
  {
  }

  /** After a reading at or past the deadline no later one can be late. */
  lemma NoneLateAfter(before: seq<int>, times: seq<int>, start: nat)
    requires before <= times && start < |before|
    requires before[|before| - 1] >= before[start] + AGGREGATE
    requires Later(times, |before|, before[start] + AGGREGATE)
    ensures LateReading(times, start) <==> LateReading(before, start)
  {
    forall k | |before| <= k < |times| ensures !IsLate(times, start, k) {
      assert times[start] == before[start];
      assert k == |before| ==> times[k - 1] == before[|before| - 1];
    }
    LateExtends(before, times, start);
  }

  /** The operating system as the parent sees it; the functions fix what it will do at each step. */
  class Kernel {
    const drift: nat -> nat
    const waits: nat -> Wait
    const sleepFails: nat -> bool
    var now: int
    var steps: nat
    var times: seq<int>
    var polls: nat
    var last: Option<Wait>
    var signals: seq<Signal>
    /** The exit status has been consumed. */
    var gone: bool
    /** A `wait4` consumed the status and raised. */
    var lost: bool
    /** Signals sent to a pid whose status had been consumed. */
    var strays: nat

    constructor (drift: nat -> nat, waits: nat -> Wait, sleepFails: nat -> bool, now: int)
      ensures !gone && !lost && strays == 0 && signals == [] && polls == 0
    {
      this.drift, this.waits, this.sleepFails := drift, waits, sleepFails;
      this.now, steps, times, polls, last := now, 0, [], 0, None;
      signals, gone, lost, strays := [], false, false, 0;
    }

    /** What every wait keeps: the status is consumed without a report only by a lost `wait4`. */
    predicate Sound()
      reads this
    {
      && (lost ==> gone)
      && (strays > 0 ==> lost)
      && (gone && !lost ==> last.Some? && last.value.Exited?)
    }

    method Monotonic() returns (t: int)
      modifies this`now, this`steps, this`times
      ensures t == now >= old(now) && times == old(times) + [t]
    {
      now, steps := now + drift(steps), steps + 1;
      t, times := now, times + [now];
    }

    method Wait4() returns (wait: Wait)
      modifies this`steps, this`polls, this`last, this`gone, this`lost
      ensures polls == old(polls) + 1 && last == Some(wait)
      ensures old(gone) ==> wait == NoChild
      ensures gone == (old(gone) || wait.Exited? || wait == Interrupted(true))
      ensures lost == (old(lost) || wait == Interrupted(true))
    {
      wait := if gone then NoChild else waits(steps);
      steps, polls, last := steps + 1, polls + 1, Some(wait);
      gone, lost := gone || wait.Exited? || wait == Interrupted(true), lost || wait == Interrupted(true);
    }

    method Sleep(duration: int) returns (problem: Option<Problem>)
      modifies this`now, this`steps
      ensures problem == Some(NegativeSleep) <==> duration < 0
      ensures problem in {None, Some(NegativeSleep), Some(SleepInterrupted)}
      ensures now >= old(now) && (problem.None? ==> now >= old(now) + duration)
    {
      if duration < 0 {
        return Some(NegativeSleep);
      }
      problem := if sleepFails(steps) then Some(SleepInterrupted) else None;
      now := now + drift(steps) + if problem.None? then duration else 0;
      steps := steps + 1;
    }

    method Kill(signal: Signal)
      modifies this`steps, this`signals, this`strays
      ensures signals == old(signals) + [signal]
      ensures strays == old(strays) + if gone then 1 else 0
    {
      steps, signals, strays := steps + 1, signals + [signal], strays + if gone then 1 else 0;
    }

    /**
     * A result is for the requested pid and carries the status of the last poll; `None`
     * only after the whole timeout.
     */
    method BoundedReap(pid: int, timeout: int) returns (r: Result<Option<Reaped>, Problem>)
      requires timeout >= 0 && Sound() && (gone ==> lost)
      modifies this`now, this`steps, this`times, this`polls, this`last, this`gone, this`lost
      ensures Sound() && now >= old(now) && old(times) <= times && Later(times, |old(times)|, old(now))
      ensures timeout == 0 ==> |times| <= |old(times)| + 2
      ensures timeout == 0 && r == Ok(None) ==> |times| == |old(times)| + 2
      ensures r == Err(BadPid) <==> pid <= 0
      ensures pid <= 0 ==> polls == old(polls) && gone == old(gone)
      ensures r == Ok(None) ==> !gone
      ensures pid > 0 ==> old(polls) < polls <= old(polls) + PollLimit(timeout)
      ensures r.Ok? && r.value.Some? <==> gone && !lost
      ensures r.Ok? && r.value.Some? ==> last == Some(Exited(r.value.value.status)) && r.value.value.pid == pid
      ensures r == Ok(None) ==> now >= old(now) + timeout && last == Some(Running)
      ensures r.Err? ==> r.error in {BadPid, Disappeared, WaitInterrupted, SleepInterrupted}
      ensures r == Err(Disappeared) ==> last == Some(NoChild)
    {
      if pid <= 0 {
        return Err(BadPid);
      }
      var start := Monotonic();
      var deadline := start + timeout;
      ghost var ahead := Sleeps(timeout);
      while true
        invariant Sound() && (gone ==> lost) && now >= start >= old(now) && old(times) <= times
        invariant Later(times, |old(times)|, old(now))
        invariant timeout == 0 ==> |times| == |old(times)| + 1 && deadline <= now
        invariant polls + ahead + 1 <= old(polls) + PollLimit(timeout)
        invariant ahead >= 0 && Sleeps(deadline - now) <= ahead && polls >= old(polls)
        decreases ahead
      {
        var wait := Wait4();
        match wait {
          case NoChild => return Err(Disappeared);
          case Interrupted(_) => return Err(WaitInterrupted);
          case Exited(status) => return Ok(Some(Reaped(pid, status)));
          case Running =>
        }
        ghost var before := now;
        var time := Monotonic();
        SleepsMonotone(deadline - time, deadline - before);
        var remaining := deadline - time;
        if remaining <= 0 {
          return Ok(None);
        }
        var problem := Sleep(if POLL < remaining then POLL else remaining);
        if problem.Some? {
          return Err(problem.value);
        }
        SleepUsesOne(remaining, deadline - now);
        ahead := ahead - 1;
      }
    }

    /** `os.kill`, whose every failure is noted or ignored, and one bounded wait. */
    method SignalAndReap(pid: int, signal: Signal, timeout: int) returns (result: Option<Reaped>)
      requires pid > 0 && timeout >= 0 && Sound() && (gone ==> lost)
      modifies this
      ensures Sound() && now >= old(now) && signals == old(signals) + [signal]
      ensures old(times) <= times && Later(times, |old(times)|, old(now))
      ensures old(polls) <= polls <= old(polls) + PollLimit(timeout)
      ensures result.Some? <==> gone && !lost
      ensures result.Some? ==> last == Some(Exited(result.value.status)) && result.value.pid == pid
      ensures strays == old(strays) + if old(gone) then 1 else 0
    {
      Kill(signal);
      var r := BoundedReap(pid, timeout);
      result := if r.Ok? then r.value else None;
    }

    /** SIGKILL follows exactly when the SIGTERM phase reaped nothing; a result means the child was reaped. */
    method TerminateAndReap(pid: int) returns (r: Result<Reaped, Problem>)
      requires Sound() && (gone ==> lost)
      modifies this
      ensures Sound() && now >= old(now) && old(times) <= times && Later(times, |old(times)|, old(now))
      ensures pid <= 0 ==> r == Err(BadPid) && signals == old(signals) && polls == old(polls) && strays == old(strays)
      ensures pid <= 0 ==> gone == old(gone) && lost == old(lost)
      ensures pid > 0 ==> signals == old(signals) + [SigTerm] || signals == old(signals) + [SigTerm, SigKill]
      ensures pid > 0 && r.Err? ==> r == Err(NotTerminated) && signals == old(signals) + [SigTerm, SigKill]
      ensures pid > 0 ==> (r.Ok? <==> gone && !lost)
      ensures r.Ok? ==> last == Some(Exited(r.value.status)) && r.value.pid == pid
      ensures old(polls) <= polls <= old(polls) + PollLimit(GRACE) + PollLimit(REAP)
      ensures strays > old(strays) ==> lost
    {
      if pid <= 0 {
        return Err(BadPid);
      }
      var result := SignalAndReap(pid, SigTerm, GRACE);
      if result.None? {
        result := SignalAndReap(pid, SigKill, REAP);
      }
      r := if result.Some? then Ok(result.value) else Err(NotTerminated);
    }

    /** The polling of `_wait_for_child`: the child's result, or `None` once the deadline has passed. */
    method PollUntilDeadline(pid: int) returns (r: Result<Option<Reaped>, Problem>)
      requires Sound() && !gone && pid > 0
      modifies this`now, this`steps, this`times, this`polls, this`last, this`gone, this`lost
      ensures Sound() && now >= old(now)
      ensures r.Ok? && r.value.Some? <==> gone && !lost
      ensures r.Ok? && r.value.Some? ==> last == Some(Exited(r.value.value.status)) && r.value.value.pid == pid
      ensures r.Err? ==> r.error in {Disappeared, WaitInterrupted, SleepInterrupted, NegativeSleep}
      ensures |times| > |old(times)| && old(times) <= times && Later(times, |old(times)|, old(now))
      ensures r == Err(NegativeSleep) <==> LateReading(times, |old(times)|)
      ensures r == Err(NegativeSleep) ==> !gone
      ensures r == Ok(None) ==>
                && !gone && times[|times| - 1] >= times[|old(times)|] + AGGREGATE
                && now >= times[|times| - 1]
      ensures polls <= old(polls) + PollLimit(AGGREGATE)
    {
      OnePollWithoutTimeout();
      assert PollLimit(AGGREGATE) == Sleeps(AGGREGATE) + 1;
      hide LateReading, Sleeps, PollLimit;
      var start := Monotonic();
      NoReadingYet(times, |old(times)|);
      var deadline := start + AGGREGATE;
      ghost var ahead := PollLimit(AGGREGATE) - 1;
      SleepsMonotone(deadline - now, AGGREGATE);
      while true
        invariant Sound() && !gone && now >= start >= old(now)
        invariant |times| > |old(times)| && old(times) <= times && times[|old(times)|] == start
        invariant (|times| - |old(times)|) % 4 == 1 && !LateReading(times, |old(times)|)
        invariant Later(times, |old(times)|, old(now))
        invariant ahead >= 0 && Sleeps(deadline - now) <= ahead
        invariant polls + ahead + 1 <= old(polls) + PollLimit(AGGREGATE)
        decreases ahead
      {
        ghost var before, earlier := now, times;
        var found := BoundedReap(pid, 0);
        FirstReadings(earlier, times, |old(times)|);
        if found.Err? || found.value.Some? {
          return found;
        }
        earlier := times;
        var check := Monotonic();
        FirstReadings(earlier, times, |old(times)|);
        if check >= deadline {
          return Ok(None);
        }
        earlier := times;
        var time := Monotonic();
        SleepsMonotone(deadline - check, deadline - before);
        var remaining := deadline - time;
        SecondReading(earlier, time, |old(times)|);
        var problem := Sleep(if POLL < remaining then POLL else remaining);
        if problem.Some? {
          return Err(problem.value);
        }
        RoundUsesOne(deadline - check, remaining, deadline - now);
        ahead := ahead - 1;
      }
    }

    /**
     * Without a timeout no signal is sent; a timed-out child was signalled only after
     * the deadline.  It raises for a negative sleep exactly if some second clock reading
     * was late.
     */
    method WaitForChild(pid: int) returns (r: Result<(Reaped, bool), Problem>)
      requires Sound() && !gone
      modifies this
      ensures Sound() && now >= old(now)
      ensures r == Err(BadPid) <==> pid <= 0
      ensures pid <= 0 ==> polls == old(polls) && signals == old(signals) && !gone
      ensures r.Ok? <==> gone && !lost
      ensures r.Ok? ==> last == Some(Exited(r.value.0.status)) && r.value.0.pid == pid
      ensures r.Ok? && !r.value.1 ==> signals == old(signals)
      ensures r.Ok? && r.value.1 ==> |signals| > |old(signals)| && signals[|old(signals)|] == SigTerm
      ensures |signals| <= |old(signals)| + 2 && old(signals) <= signals
      ensures signals != old(signals) ==> signals[|old(signals)|] == SigTerm
      ensures signals != old(signals) ==> now >= old(now) + AGGREGATE
      ensures r == Err(NotTerminated) ==> signals == old(signals) + [SigTerm, SigKill]
      ensures old(times) <= times && (pid > 0 ==> |times| > |old(times)|) && Later(times, |old(times)|, old(now))
      ensures r == Err(NegativeSleep) <==> LateReading(times, |old(times)|)
      ensures r == Err(NegativeSleep) ==> signals == old(signals) && !gone
      ensures polls <= old(polls) + PollLimit(AGGREGATE) + PollLimit(GRACE) + PollLimit(REAP)
    {
      NoReadingYet(times, |times|);
      hide LateReading, Sleeps;
      if pid <= 0 {
        return Err(BadPid);
      }
      var found := PollUntilDeadline(pid);
      if found.Err? {
        return Err(found.error);
      }
      if found.value.Some? {
        return Ok((found.value.value, false));
      }
      ghost var checked := times;
      var ended := TerminateAndReap(pid);
      NoneLateAfter(checked, times, |old(times)|);
      r := if ended.Ok? then Ok((ended.value, true)) else Err(ended.error);
    }

    /**
     * The wait of the launch with its cleanup: when it raises, as it does for a late
     * reading, the child is terminated once more, SIGTERM first.  No signal reaches a pid
     * whose status was consumed, unless a `wait4` lost that status; and a cleanup that
     * works means the child was reaped.
     */
    method WaitOrCleanUp(pid: int) returns (r: Result<(Reaped, bool), bool>)
      requires Sound() && !gone && strays == 0
      modifies this
      ensures Sound()
      ensures r.Ok? || (r.Err? && !r.error && pid > 0) ==> gone && !lost
      ensures r.Ok? ==> last == Some(Exited(r.value.0.status)) && r.value.0.pid == pid > 0
      ensures strays > 0 ==> lost
      ensures |signals| <= |old(signals)| + 4
      ensures old(times) <= times && old(signals) <= signals
      ensures LateReading(times, |old(times)|) ==> r.Err?
      ensures r.Err? && pid > 0 ==> |signals| > |old(signals)| && signals[|old(signals)|] == SigTerm
    {
      hide LateReading;
      NoReadingYet(times, |times|);
      var waited := WaitForChild(pid);
      if waited.Ok? {
        return Ok(waited.value);
      }
      if pid <= 0 {
        return Err(false);
      }
      var ended := TerminateAndReap(pid);
      r := Err(ended.Err?);
    }
  }
}
