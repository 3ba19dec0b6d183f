/** When the pass looks for apps that were thawed behind its back. */
module Audit {
  import opened Domain

  const PHASE: nat := 15 * 60_000
  const MINUTE: nat := 60_000

  datatype Clock = Clock(started: Option<nat>, next: Option<nat>)

  function LateInterval(settings: seq<nat>): Option<nat> {
    match Setting(settings, 6)
    case 1 => Some(30 * MINUTE)
    case 2 => Some(60 * MINUTE)
    case 3 => Some(120 * MINUTE)
    case _ => None
  }

  function StartOf(c: Clock, now: nat): nat { if c.started.Some? then c.started.value else now }

  function Interval(c: Clock, settings: seq<nat>, now: nat): Option<nat> {
    if now < StartOf(c, now) + PHASE then Some(MINUTE) else LateInterval(settings)
  }

  function Deadline(c: Clock, now: nat): nat {
    if c.next.Some? then c.next.value else StartOf(c, now) + MINUTE
  }

  predicate Due(c: Clock, settings: seq<nat>, now: nat) {
    Interval(c, settings, now).Some? && Deadline(c, now) <= now
  }

  function Tick(c: Clock, settings: seq<nat>, now: nat): Clock {
    Clock(Some(StartOf(c, now)),
          if Interval(c, settings, now).None? then None
          else if Due(c, settings, now) then Some(now + Interval(c, settings, now).value)
          else Some(Deadline(c, now)))
  }

  // ---- Every run of passes at nondecreasing times under fixed settings

  predicate Nondecreasing(times: seq<nat>) {
    forall i, j :: 0 <= i <= j < |times| ==> times[i] <= times[j]
  }

  /** The clock after the first n passes. */
  function ClockAfter(times: seq<nat>, settings: seq<nat>, n: nat): Clock
    requires n <= |times|
  {
    if n == 0 then Clock(None, None) else Tick(ClockAfter(times, settings, n - 1), settings, times[n - 1])
  }

  predicate DueAt(times: seq<nat>, settings: seq<nat>, i: nat)
    requires i < |times|
  {
    Due(ClockAfter(times, settings, i), settings, times[i])
  }

  lemma {:induction false} StartIsFirstPass(times: seq<nat>, settings: seq<nat>, n: nat)
    requires 0 < n <= |times|
    ensures ClockAfter(times, settings, n).started == Some(times[0])
  {
    if n > 1 { StartIsFirstPass(times, settings, n - 1); }
  }

  /** How far the next audit is from one at this time: a minute in the first quarter of an hour, then as chosen. */
  function Gap(start: nat, settings: seq<nat>, at: nat): nat {
    if at < start + 900_000 then 60_000
    else if |settings| <= 6 then 0
    else match settings[6]
         case 1 => 1_800_000
         case 2 => 3_600_000
         case 3 => 7_200_000
         case _ => 0
  }

  predicate AuditsLate(settings: seq<nat>) { |settings| > 6 && settings[6] in {1, 2, 3} }

  lemma {:induction false} IntervalIsGap(times: seq<nat>, settings: seq<nat>, i: nat)
    requires i < |times| && Nondecreasing(times)
    ensures var c := ClockAfter(times, settings, i);
            && StartOf(c, times[i]) == times[0]
            && (Interval(c, settings, times[i]).Some? <==> times[i] < times[0] + 900_000 || AuditsLate(settings))
            && (Interval(c, settings, times[i]).Some? ==>
                  Interval(c, settings, times[i]).value == Gap(times[0], settings, times[i]))
  {
    if i > 0 { StartIsFirstPass(times, settings, i); }
  }

  /** As long as audits are possible at all, the deadline is the last audit's time and gap. */
  lemma {:induction false} DeadlineAfterAudit(times: seq<nat>, settings: seq<nat>, i: nat, n: nat)
    requires i < n < |times| && Nondecreasing(times) && DueAt(times, settings, i)
    requires forall k :: i < k < n ==> !DueAt(times, settings, k)
    requires times[n] < times[0] + 900_000 || AuditsLate(settings)
    ensures ClockAfter(times, settings, n).next == Some(times[i] + Gap(times[0], settings, times[i]))
  {
    IntervalIsGap(times, settings, n - 1);
    if n - 1 > i {
      DeadlineAfterAudit(times, settings, i, n - 1);
      assert !DueAt(times, settings, n - 1);
    }
  }

  lemma {:induction false} QuietDeadline(times: seq<nat>, settings: seq<nat>, n: nat)
    requires n < |times| && Nondecreasing(times)
    requires forall k :: 0 <= k < n ==> !DueAt(times, settings, k)
    ensures Deadline(ClockAfter(times, settings, n), times[n]) == times[0] + MINUTE
  {
    if n == 0 {
    } else {
      QuietDeadline(times, settings, n - 1);
      StartIsFirstPass(times, settings, n);
      assert !DueAt(times, settings, n - 1);
    }
  }

  /** The pass comes at least a minute after the first one and keeps the gap of every audit before it. */
  ghost predicate KeepsGaps(times: seq<nat>, settings: seq<nat>, j: nat)
    requires j < |times|
  {
    && times[j] >= times[0] + 60_000
    && forall i :: 0 <= i < j && DueAt(times, settings, i) ==> times[j] >= times[i] + Gap(times[0], settings, times[i])
  }

  /** The last audit before pass `n`, or `n` if there was none. */
  lemma {:induction false} LastAudit(times: seq<nat>, settings: seq<nat>, n: nat) returns (i: nat)
    requires n < |times|
    ensures i <= n && forall k :: i < k < n ==> !DueAt(times, settings, k)
    ensures if i < n then DueAt(times, settings, i) else forall k :: 0 <= k < n ==> !DueAt(times, settings, k)
  {
    if n == 0 {
      i := 0;
    } else if DueAt(times, settings, n - 1) {
      i := n - 1;
    } else {
      i := LastAudit(times, settings, n - 1);
      if i == n - 1 { i := n; }
    }
  }

  /** A pass audits exactly if it keeps every gap and audits are still possible. */
  lemma {:induction false} AuditsExactly(times: seq<nat>, settings: seq<nat>, j: nat)
    requires j < |times| && Nondecreasing(times)
    ensures DueAt(times, settings, j) <==>
            (times[j] < times[0] + 900_000 || AuditsLate(settings)) && KeepsGaps(times, settings, j)
  {
    var last := LastAudit(times, settings, j);
    IntervalIsGap(times, settings, j);
    if last == j {
      QuietDeadline(times, settings, j);
    } else if times[j] < times[0] + 900_000 || AuditsLate(settings) {
      DeadlineAfterAudit(times, settings, last, j);
      AuditsExactly(times, settings, last);
      forall i | 0 <= i < j && DueAt(times, settings, i)
        ensures times[last] + Gap(times[0], settings, times[last]) >= times[i] + Gap(times[0], settings, times[i])
      {
        assert i <= last;
      }
    }
  }

  /**
    With changing settings the spacing is lost: once the option was off after the start-up phase, the
    remembered deadline is gone, and switching it on makes the very next pass audit.
   */
  lemma SwitchingOnAuditsAtOnce(c: Clock, off: seq<nat>, on: seq<nat>, before: nat, now: nat)
    requires c.started.Some? && c.started.value + 900_000 <= before <= now && !AuditsLate(off)
    ensures Due(Tick(c, off, before), on, now) <==> AuditsLate(on)
  {
  }
}
