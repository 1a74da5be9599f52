/**
 The circuit breaker shared by notification sinks and advisory lookups
 (src/breaker.rs).  Time is counted in ticks from an arbitrary start.
 */
module CircuitBreaker {
  import opened Text

  const MAX_U32 := 0xFFFF_FFFF

  type U32 = n: nat | n <= MAX_U32

  datatype BreakerState = BreakerState(failures: U32, openUntil: Option<nat>)

  const CLOSED := BreakerState(0, None)

  predicate Allows(s: BreakerState, now: nat) {
    s.openUntil.None? || now >= s.openUntil.value
  }

  function SaturatingNext(n: U32): U32 {
    if n == MAX_U32 then n else n + 1
  }

  /** The state after an outcome is recorded. */
  function After(s: BreakerState, now: nat, success: bool, threshold: U32, cooldown: nat): BreakerState {
    if success then CLOSED
    else
      var failures := SaturatingNext(s.failures);
      BreakerState(failures, if failures >= threshold then Some(now + cooldown) else s.openUntil)
  }

  /** Whether recording the outcome reports a newly opened breaker. */
  predicate Reports(s: BreakerState, now: nat, success: bool, threshold: U32) {
    !success && SaturatingNext(s.failures) >= threshold && Allows(s, now)
  }

  class Breaker {
    var consecutiveFailures: U32
    var openUntil: Option<nat>

    constructor ()
      ensures Now() == CLOSED
    {
      consecutiveFailures := 0;
      openUntil := None;
    }

    function Now(): BreakerState
      reads this
    {
      BreakerState(consecutiveFailures, openUntil)
    }

    method Reset()
      modifies this
      ensures Now() == CLOSED
    {
      consecutiveFailures := 0;
      openUntil := None;
    }

    method Record(now: nat, success: bool, threshold: U32, cooldown: nat) returns (reported: bool)
      modifies this
      ensures Now() == After(old(Now()), now, success, threshold, cooldown)
      ensures reported == Reports(old(Now()), now, success, threshold)
    {
      if success {
        Reset();
        return false;
      }
      if consecutiveFailures < MAX_U32 {
        consecutiveFailures := consecutiveFailures + 1;
      }
      if consecutiveFailures >= threshold {
        var alreadyOpen := openUntil.Some? && now < openUntil.value;
        openUntil := Some(now + cooldown);
        return !alreadyOpen;
      }
      return false;
    }
  }

  // ----------------------------------------------------------------- history

  datatype Outcome = Outcome(at: nat, success: bool)

  function Fold(history: seq<Outcome>, threshold: U32, cooldown: nat): BreakerState {
    if history == [] then CLOSED
    else
      var last := history[|history| - 1];
      After(Fold(history[..|history| - 1], threshold, cooldown), last.at, last.success, threshold, cooldown)
  }

  /** How many failures the history ends with. */
  function Streak(history: seq<Outcome>): nat {
    if history == [] || history[|history| - 1].success then 0 else Streak(history[..|history| - 1]) + 1
  }

  /**
   A breaker remembers nothing but the streak its history ends with: it is open
   for one cooldown after the last failure of a streak that reached the threshold.
   */
  lemma {:induction false} StreakDecides(history: seq<Outcome>, threshold: U32, cooldown: nat)
    ensures Fold(history, threshold, cooldown) ==
            BreakerState(if Streak(history) <= MAX_U32 then Streak(history) else MAX_U32,
                         if Streak(history) > 0 && Streak(history) >= threshold
                         then Some(history[|history| - 1].at + cooldown) else None)
    decreases |history|
  {
    if history != [] {
      StreakDecides(history[..|history| - 1], threshold, cooldown);
    }
  }

  /** No full streak stands, or its last failure is a cooldown ago. */
  predicate Passable(history: seq<Outcome>, now: nat, threshold: U32, cooldown: nat) {
    || Streak(history) == 0 || Streak(history) < threshold
    || (history != [] && history[|history| - 1].at + cooldown <= now)
  }

  /** After every history a call is let through exactly then; so a breaker never stays open for good. */
  lemma AllowedExactly(history: seq<Outcome>, now: nat, threshold: U32, cooldown: nat)
    ensures Allows(Fold(history, threshold, cooldown), now) <==> Passable(history, now, threshold, cooldown)
    ensures history != [] && now >= history[|history| - 1].at + cooldown ==> Allows(Fold(history, threshold, cooldown), now)
  {
    StreakDecides(history, threshold, cooldown);
  }

  /**
   A failure is reported exactly if it completes a streak, or adds to a full one and
   came when a call would have been let through: a failed trial a cooldown later is
   reported again, and nothing in between.
   */
  lemma ReportedExactly(history: seq<Outcome>, now: nat, threshold: U32, cooldown: nat)
    ensures Reports(Fold(history, threshold, cooldown), now, false, threshold) <==>
            Streak(history) + 1 >= threshold && Passable(history, now, threshold, cooldown)
    ensures !Reports(Fold(history, threshold, cooldown), now, true, threshold)
  {
    StreakDecides(history, threshold, cooldown);
  }

  // ------------------------------------------------------------ gated callers

  /** One call: when the breaker was asked, and when its outcome was recorded. */
  datatype Attempt = Attempt(asked: nat, done: nat)

  /** Attempts of one caller, one after the other, each let through and each failing. */
  predicate GatedFailures(s: BreakerState, attempts: seq<Attempt>, threshold: U32, cooldown: nat)
    decreases |attempts|
  {
    attempts == [] ||
    (&& Allows(s, attempts[0].asked) && attempts[0].asked <= attempts[0].done
     && (|attempts| > 1 ==> attempts[0].done <= attempts[1].asked)
     && GatedFailures(After(s, attempts[0].done, false, threshold, cooldown), attempts[1..], threshold, cooldown))
  }

  /** Failures the breaker still lets through back to back. */
  function Credit(s: BreakerState, threshold: U32): nat {
    if s.failures + 1 < threshold then threshold - s.failures else 1
  }

  /** The length of `n` cooldowns. */
  function Cooldowns(n: int, cooldown: nat): int {
    n * cooldown
  }

  lemma OneMore(n: int, cooldown: nat)
    ensures Cooldowns(n + 1, cooldown) == Cooldowns(n, cooldown) + cooldown
    ensures Cooldowns(0, cooldown) == 0 && (n <= 0 ==> Cooldowns(n, cooldown) <= 0)
  {
  }

  lemma CooldownsFit(n: int, span: nat, cooldown: nat)
    requires cooldown > 0
    ensures Cooldowns(n, cooldown) <= span ==> n <= span / cooldown
  {
    if n > span / cooldown {
      LongerSpan(span / cooldown + 1, n, cooldown);
    }
  }

  lemma LongerSpan(m: int, n: int, cooldown: nat)
    requires m <= n
    ensures m * cooldown <= n * cooldown
  {
  }

  /** Once the credit is spent, every further attempt waits out a cooldown. */
  lemma {:induction false} FailuresSpaced(s: BreakerState, attempts: seq<Attempt>, threshold: U32, cooldown: nat)
    requires GatedFailures(s, attempts, threshold, cooldown) && attempts != []
    ensures attempts[0].asked <= attempts[|attempts| - 1].asked
    ensures Cooldowns(|attempts| - Credit(s, threshold), cooldown)
            <= attempts[|attempts| - 1].asked - attempts[0].asked
    decreases |attempts|
  {
    hide Cooldowns;
    var extra: int := |attempts| - Credit(s, threshold);
    OneMore(extra, cooldown);
    if |attempts| > 1 {
      var next := After(s, attempts[0].done, false, threshold, cooldown);
      FailuresSpaced(next, attempts[1..], threshold, cooldown);
      assert attempts[1..][|attempts| - 2] == attempts[|attempts| - 1];
      OneMore(extra - 1, cooldown);
    }
  }

  /**
   In a stretch without a success, a gated caller makes at most `threshold`
   attempts plus one for each cooldown that fits in.
   */
  lemma GatedAttemptsBounded(s: BreakerState, attempts: seq<Attempt>, threshold: U32, cooldown: nat)
    requires GatedFailures(s, attempts, threshold, cooldown) && attempts != [] && threshold >= 1 && cooldown > 0
    ensures attempts[0].asked <= attempts[|attempts| - 1].asked
    ensures |attempts| <= threshold + (attempts[|attempts| - 1].asked - attempts[0].asked) / cooldown
  {
    hide Cooldowns, GatedFailures;
    FailuresSpaced(s, attempts, threshold, cooldown);
    CooldownsFit(|attempts| - Credit(s, threshold), attempts[|attempts| - 1].asked - attempts[0].asked, cooldown);
  }

  // ---------------------------------------------------------------- reports

  /** Reported openings over failures recorded at the given times, whether or not the caller asked first. */
  function Openings(s: BreakerState, times: seq<nat>, threshold: U32, cooldown: nat): nat
    decreases |times|
  {
    if times == [] then 0
    else (if Reports(s, times[0], false, threshold) then 1 else 0)
         + Openings(After(s, times[0], false, threshold, cooldown), times[1..], threshold, cooldown)
  }

  predicate Monotone(times: seq<nat>) {
    forall i :: 0 < i < |times| ==> times[i - 1] <= times[i]
  }

  /** Every failure while open re-arms the cooldown, so two reports are at least one cooldown apart. */
  lemma {:induction false} ReportsSpaced(s: BreakerState, times: seq<nat>, threshold: U32, cooldown: nat)
    requires Monotone(times) && times != []
    requires s.openUntil.Some? ==> s.openUntil.value <= times[0] + cooldown
    ensures times[0] <= times[|times| - 1]
    ensures Openings(s, times, threshold, cooldown) > 0 ==>
              times[0] + Cooldowns(Openings(s, times, threshold, cooldown) - 1, cooldown) <= times[|times| - 1]
    ensures Openings(s, times, threshold, cooldown) > 0 && s.openUntil.Some? ==>
              s.openUntil.value + Cooldowns(Openings(s, times, threshold, cooldown) - 1, cooldown)
              <= times[|times| - 1]
    decreases |times|
  {
    hide Cooldowns;
    var next := After(s, times[0], false, threshold, cooldown);
    OneMore(-1, cooldown);
    if |times| > 1 {
      assert Monotone(times[1..]) by {
        assert forall i :: 0 < i < |times| - 1 ==> times[1..][i - 1] == times[i] && times[1..][i] == times[i + 1];
      }
      assert times[0] <= times[1];
      ReportsSpaced(next, times[1..], threshold, cooldown);
      var later: int := Openings(next, times[1..], threshold, cooldown);
      OneMore(later - 1, cooldown);
    } else {
      assert times[1..] == [];
    }
  }

  /** After every history, an open breaker was armed at most one cooldown ahead. */
  lemma ArmedWithinCooldown(history: seq<Outcome>, now: nat, threshold: U32, cooldown: nat)
    requires history != [] ==> history[|history| - 1].at <= now
    ensures var s := Fold(history, threshold, cooldown);
            s.openUntil.Some? ==> s.openUntil.value <= now + cooldown
  {
    StreakDecides(history, threshold, cooldown);
  }

  /**
   Even ungated, and after whatever history, a success-free stretch reports one
   opening and one more for each cooldown that fits in.
   */
  lemma ReportsBounded(history: seq<Outcome>, times: seq<nat>, threshold: U32, cooldown: nat)
    requires Monotone(times) && times != [] && cooldown > 0
    requires history != [] ==> history[|history| - 1].at <= times[0]
    ensures times[0] <= times[|times| - 1]
    ensures Openings(Fold(history, threshold, cooldown), times, threshold, cooldown)
            <= 1 + (times[|times| - 1] - times[0]) / cooldown
  {
    hide Cooldowns, Openings, Fold;
    var s := Fold(history, threshold, cooldown);
    ArmedWithinCooldown(history, times[0], threshold, cooldown);
    ReportsSpaced(s, times, threshold, cooldown);
    if Openings(s, times, threshold, cooldown) > 0 {
      CooldownsFit(Openings(s, times, threshold, cooldown) - 1, times[|times| - 1] - times[0], cooldown);
    }
  }
}
