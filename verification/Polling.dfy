/** The three polling loops against a clock: how often they ask, and what their answer means. Times are in milliseconds. */
module Polling {
  import opened Basics
  import opened Text

  datatype Runtime = Running | Stopped | Unknown

  /** `now(k)` is the time of the deadline check after query k. */
  type Clock = nat -> nat

  /** The clock does not run backwards, and a sleep of `interval` lies between two checks. */
  ghost predicate Sleeps(now: Clock, begin: nat, interval: nat) {
    now(0) >= begin && forall k: nat :: now(k + 1) >= now(k) + interval
  }

  /** No check before query k found the time over. */
  ghost predicate Open(now: Clock, begin: nat, timeout: nat, k: nat) {
    forall j: nat :: j < k ==> now(j) < begin + timeout
  }

  lemma {:induction false} ClockAdvances(now: Clock, begin: nat, interval: nat, k: nat)
    requires Sleeps(now, begin, interval)
    ensures now(k) >= begin + k * interval
  {
    if k > 0 {
      ClockAdvances(now, begin, interval, k - 1);
      assert k * interval == (k - 1) * interval + interval;
    }
  }

  /** A query made while the time is not over is one of the first ceil(timeout / interval) + 1. */
  lemma OpenIsBounded(now: Clock, begin: nat, timeout: nat, interval: nat, k: nat)
    requires interval > 0 && Sleeps(now, begin, interval) && Open(now, begin, timeout, k)
    ensures k < (timeout + interval - 1) / interval + 1
  {
    if k > 0 {
      ClockAdvances(now, begin, interval, k - 1);
      assert now(k - 1) < begin + timeout;
      Quotient(k - 1, timeout, interval);
    }
  }

  lemma Quotient(k: nat, timeout: nat, interval: nat)
    requires interval > 0 && k * interval < timeout
    ensures k < (timeout + interval - 1) / interval
  {
    var q := (timeout + interval - 1) / interval;
    assert q * interval >= timeout;
    CancelFactor(k, q, interval);
  }

  lemma CancelFactor(a: nat, b: nat, factor: nat)
    requires a * factor < b * factor
    ensures a < b
  {
  }

  // --- poll_for_state -------------------------------------------------------------------------

  const STATE_POLL_INTERVAL: nat := 2_000
  const STATE_POLL_TIMEOUT: nat := 120_000

  /** Query k reports the wanted status, and every earlier one was answered and checked before two minutes were over. */
  ghost predicate Observed(answer: nat -> Option<Runtime>, now: Clock, begin: nat, desired: Runtime, k: nat) {
    answer(k) == Some(desired) && forall j: nat :: j < k ==> answer(j).Some? && now(j) < begin + 120_000
  }

  /** `answer(k)` is the status query k reports, None on an error. */
  method PollForState(answer: nat -> Option<Runtime>, now: Clock, begin: nat, desired: Runtime) returns (r: Runtime, queries: nat)
    requires Sleeps(now, begin, 2_000)
    ensures 1 <= queries <= 61
    ensures r == desired || r == Unknown
    ensures desired != Unknown ==> (r == desired <==> exists k: nat :: Observed(answer, now, begin, desired, k))
  {
    queries := 0;
    while true
      invariant Open(now, begin, STATE_POLL_TIMEOUT, queries)
      invariant forall j: nat :: j < queries ==> answer(j).Some? && answer(j) != Some(desired)
      decreases 61 - queries
    {
      OpenIsBounded(now, begin, STATE_POLL_TIMEOUT, STATE_POLL_INTERVAL, queries);
      var k := queries;
      queries := queries + 1;
      if answer(k) == Some(desired) {
        assert Observed(answer, now, begin, desired, k);
        return desired, queries;
      }
      if answer(k).None? { return Unknown, queries; }
      if now(k) - begin >= STATE_POLL_TIMEOUT { return Unknown, queries; }
    }
  }

  // --- wait_for_unlock and wait_for_task ---------------------------------------------------------

  const WAIT_INTERVAL: nat := 3_000

  /** What a status response says about the disk lock; errors and unreadable bodies say nothing. */
  datatype LockAnswer = Unlocked | Locked | Unreadable

  ghost predicate SeenUnlocked(answer: nat -> LockAnswer, now: Clock, begin: nat, timeout: nat, k: nat) {
    answer(k) == Unlocked && forall j: nat :: j < k ==> now(j) < begin + timeout
  }

  method WaitForUnlock(answer: nat -> LockAnswer, now: Clock, begin: nat, timeout: nat) returns (ok: bool, queries: nat)
    requires Sleeps(now, begin, 3_000)
    ensures 1 <= queries <= (timeout + 2_999) / 3_000 + 1
    ensures ok <==> exists k: nat :: SeenUnlocked(answer, now, begin, timeout, k)
  {
    queries := 0;
    while true
      invariant Open(now, begin, timeout, queries)
      invariant forall j: nat :: j < queries ==> answer(j) != Unlocked
      decreases (timeout + 2_999) / 3_000 + 1 - queries
    {
      OpenIsBounded(now, begin, timeout, WAIT_INTERVAL, queries);
      var k := queries;
      queries := queries + 1;
      if answer(k) == Unlocked {
        assert SeenUnlocked(answer, now, begin, timeout, k);
        return true, queries;
      }
      if now(k) >= begin + timeout { return false, queries; }
    }
  }

  datatype TaskAnswer = TaskStopped(exit: Option<string>) | StillRunning | NoAnswer

  /** Query k is the first to see the task stopped, within the time. */
  ghost predicate SeenStopped(answer: nat -> TaskAnswer, now: Clock, begin: nat, timeout: nat, k: nat) {
    answer(k).TaskStopped? && forall j: nat :: j < k ==> !answer(j).TaskStopped? && now(j) < begin + timeout
  }

  /** The node is the second part of the task id; success is a task seen stopped with exit status OK. */
  method WaitForTask(upid: string, answer: nat -> TaskAnswer, now: Clock, begin: nat, timeout: nat) returns (ok: bool, queries: nat)
    requires Sleeps(now, begin, 3_000)
    ensures queries <= (timeout + 2_999) / 3_000 + 1
    ensures queries == 0 <==> ':' !in upid
    ensures ok <==> ':' in upid && exists k: nat :: SeenStopped(answer, now, begin, timeout, k) && answer(k).exit == Some("OK")
  {
    SplitsIffPresent(upid, ':');
    if |Split(upid, ':')| < 2 { return false, 0; }
    queries := 0;
    while true
      invariant Open(now, begin, timeout, queries)
      invariant forall j: nat :: j < queries ==> !answer(j).TaskStopped?
      decreases (timeout + 2_999) / 3_000 + 1 - queries
    {
      OpenIsBounded(now, begin, timeout, WAIT_INTERVAL, queries);
      var k := queries;
      queries := queries + 1;
      match answer(k) {
        case TaskStopped(exit) =>
          assert SeenStopped(answer, now, begin, timeout, k);
          return exit == Some("OK"), queries;
        case _ =>
      }
      if now(k) >= begin + timeout { return false, queries; }
    }
  }

  lemma {:induction false} SplitsIffPresent(s: string, c: char)
    ensures |Split(s, c)| >= 2 <==> c in s
  {
    if s != [] && s[0] != c {
      SplitsIffPresent(s[1..], c);
      assert s == [s[0]] + s[1..];
    }
  }
}
