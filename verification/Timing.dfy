/**
 * Waiting in poll intervals, in whole nanoseconds: the measure of the wait loops in
 * scripts/benchmark_ck07r1_lifecycle_scale.py and scripts/bootstrap_dev_environment.py,
 * which both sleep a tenth of a second.
 */
module Timing {
  const POLL := 100_000_000

  /** The sleeps still ahead with `left` to go. */
  function Sleeps(left: int): (n: int)
    ensures n >= 0 && (left > 0 ==> n > 0)
  {
    if left <= 0 then 0 else (left + POLL - 1) / POLL
  }

  /** Polls that fit into a wait of the given length: one at the start and one after each sleep. */
  function PollLimit(timeout: int): int
  {
    Sleeps(timeout) + 1
  }

  lemma OnePollWithoutTimeout()
    ensures PollLimit(0) == 1
  {
  }

  /** A sleep of a whole poll interval, or of all that is left, uses up one of them. */
  lemma SleepUsesOne(left: int, later: int)
    requires left > 0 && later <= left - (if left < POLL then left else POLL)
    ensures Sleeps(later) < Sleeps(left)
  {
    if later > 0 {
      assert later + POLL <= left;
      assert (later + POLL - 1 + POLL) / POLL == (later + POLL - 1) / POLL + 1;
      assert later + POLL - 1 + POLL <= left + POLL - 1;
    }
  }

  lemma SleepsMonotone(less: int, more: int)
    requires less <= more
    ensures Sleeps(less) <= Sleeps(more)
  {
  }

  /** With some time left at the first look, a round with its sleep uses up one. */
  lemma RoundUsesOne(first: int, left: int, later: int)
    requires 0 < first && 0 <= left <= first && later <= left - (if left < POLL then left else POLL)
    ensures Sleeps(later) < Sleeps(first)
  {
    SleepsMonotone(left, first);
    if left > 0 {
      SleepUsesOne(left, later);
    }
  }
}
