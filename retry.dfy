/** The retry loop of `ProcessNotification` (pkg/notification/notification.go) as a function of
    what each attempt would return: attempt i, when it happens, returns `script[i]`, and the
    script is as long as the number of attempts allowed. */
module RetryPolicy {
  import opened Common

  function Pow2(k: nat): (r: nat)
    ensures r >= 1
  {
    if k == 0 then 1 else 2 * Pow2(k - 1)
  }

  /** The pauses, in seconds, after failed attempts 0, 1, ..., k-1. */
  function Backoffs(k: nat): (pauses: seq<nat>)
    ensures |pauses| == k
    ensures forall i :: 0 <= i < k ==> pauses[i] == Pow2(i)
  {
    if k == 0 then [] else Backoffs(k - 1) + [Pow2(k - 1)]
  }

  function Sum(s: seq<nat>): nat
  {
    if |s| == 0 then 0 else Sum(s[..|s| - 1]) + s[|s| - 1]
  }

  /** After k failed attempts the loop has slept 2^k - 1 seconds in all. */
  lemma {:induction false} BackoffTotal(k: nat)
    ensures Sum(Backoffs(k)) == Pow2(k) - 1
  {
    if k > 0 {
      BackoffTotal(k - 1);
      assert Backoffs(k)[..k - 1] == Backoffs(k - 1);
    }
  }

  /** What one run of the loop did: how many attempts it made, the pauses it slept, whether it
      went on to the dead-letter push, and what it returned. */
  datatype RetryRun = RetryRun(attempts: nat, sleeps: seq<nat>, deadLettered: bool, result: Outcome)

  /** The loop from iteration i on, attempts 0..i-1 having failed and `sendErr` holding the last
      result (nil before the first attempt). */
  function RetryFrom(script: seq<Outcome>, i: nat, sendErr: Outcome): RetryRun
    requires i <= |script|
    decreases |script| - i
  {
    if i == |script| then RetryRun(i, Backoffs(i), true, sendErr)
    else if script[i].Pass? then RetryRun(i + 1, Backoffs(i), false, Pass)
    else RetryFrom(script, i + 1, script[i])
  }

  function Retry(script: seq<Outcome>): RetryRun
  {
    RetryFrom(script, 0, Pass)
  }

  /** The number of attempts the loop allows: `for i := range maxRetries` runs no iteration
      when `maxRetries <= 0`. */
  function AttemptsAllowed(maxRetries: int): nat
  {
    if maxRetries > 0 then maxRetries else 0
  }

  lemma {:induction false} RetryFromOutcome(script: seq<Outcome>, i: nat, sendErr: Outcome)
    requires i <= |script|
    requires forall j :: 0 <= j < i ==> script[j].Fail?
    requires sendErr == (if i == 0 then Pass else script[i - 1])
    ensures var run := RetryFrom(script, i, sendErr);
      && (run.deadLettered <==> forall j :: 0 <= j < |script| ==> script[j].Fail?)
      && (run.deadLettered ==>
            && run.attempts == |script| && run.sleeps == Backoffs(|script|)
            && run.result == (if |script| == 0 then Pass else script[|script| - 1]))
      && (!run.deadLettered ==>
            && 1 <= run.attempts <= |script| && script[run.attempts - 1].Pass?
            && (forall j :: 0 <= j < run.attempts - 1 ==> script[j].Fail?)
            && run.sleeps == Backoffs(run.attempts - 1) && run.result == Pass)
    decreases |script| - i
  {
    if i < |script| && script[i].Fail? {
      RetryFromOutcome(script, i + 1, script[i]);
    }
  }

  /** The loop stops at the first successful attempt and returns nil, having slept after each
      earlier failure and without a dead-letter push; if no attempt succeeds it makes every
      attempt allowed, sleeps after each of them (the last one included), goes on to the
      dead-letter push and returns the last error, or nil when no attempt was allowed. */
  lemma RetryOutcome(script: seq<Outcome>)
    ensures var run := Retry(script);
      && (run.deadLettered <==> forall j :: 0 <= j < |script| ==> script[j].Fail?)
      && (run.deadLettered ==>
            && run.attempts == |script| && run.sleeps == Backoffs(|script|)
            && run.result == (if |script| == 0 then Pass else script[|script| - 1]))
      && (!run.deadLettered ==>
            && 1 <= run.attempts <= |script| && script[run.attempts - 1].Pass?
            && (forall j :: 0 <= j < run.attempts - 1 ==> script[j].Fail?)
            && run.sleeps == Backoffs(run.attempts - 1) && run.result == Pass)
  {
    RetryFromOutcome(script, 0, Pass);
  }

  /** The call returns an error exactly when every attempt failed and there was at least one. */
  lemma RetryFailsIff(script: seq<Outcome>)
    ensures Retry(script).result.Fail? <==>
      |script| > 0 && forall j :: 0 <= j < |script| ==> script[j].Fail?
  {
    RetryOutcome(script);
  }

  /** n failed attempts sleep 1, 2, ..., 2^(n-1) seconds, 2^n - 1 seconds in all. */
  lemma AllFailSleeps(script: seq<Outcome>)
    requires forall j :: 0 <= j < |script| ==> script[j].Fail?
    ensures Retry(script).sleeps == Backoffs(|script|)
    ensures Sum(Retry(script).sleeps) == Pow2(|script|) - 1
  {
    RetryOutcome(script);
    BackoffTotal(|script|);
  }
}
