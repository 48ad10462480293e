/** The execute/validate/repair loop of adapters/codex_cli.py with the timeout escalation of
    orchestrator/codex_execution.py. What Codex and the validator answer is an oracle. */
module CodexLoop {
  import opened Options

  const MAX_TIMEOUT: nat := 18000

  datatype ExecStatus = Completed | ExecFailed | TimedOut | NotStarted

  /** A finished safe validation; `actionable` is whether a usable command failure can be extracted. */
  datatype Verdict = Passed | Partial | Failed(actionable: bool) | ExecutorError

  datatype Verify = NotRun | Ran(verdict: Verdict) {
    /** Verify status `passed`; a partial validation counts. */
    predicate Green() { Ran? && (verdict.Passed? || verdict.Partial?) }
  }

  /** Attempt k is answered by first(k), by `retried` if it is the one retried after a timeout, and by
      verdict(k) if it is validated. */
  datatype Oracle = Oracle(first: nat -> ExecStatus, retried: ExecStatus, verdict: nat -> Verdict)

  datatype RetryOutcome = NotAttempted | RetryFailed | RetrySucceeded
  datatype RepairOutcome = NoRepair | RepairSucceeded | RepairExhausted
  datatype AttemptRecord = AttemptRecord(number: nat, repair: bool, status: ExecStatus, verify: Verify)

  datatype Result = Result(status: ExecStatus, verify: Verify, attemptCount: nat, retry: RetryOutcome,
    repairsUsed: nat, repair: RepairOutcome, firstOutcome: ExecStatus, timeoutRetries: nat,
    timeoutRetrySeconds: Option<nat>, attempts: seq<AttemptRecord>, interpretation: string, recommendation: string)

  /** The one longer timeout; it exists exactly below the maximum and is then really longer. */
  function TimeoutRetrySeconds(initial: nat): (r: Option<nat>)
    requires 1 <= initial <= MAX_TIMEOUT
    ensures r.Some? <==> initial < MAX_TIMEOUT
    ensures r.Some? ==> initial < r.value <= MAX_TIMEOUT
    ensures r.Some? ==> r.value == MAX_TIMEOUT || (r.value >= 2 * initial && r.value >= initial + 1800)
    ensures r.Some? ==> r.value <= 2 * initial || r.value <= initial + 1800
  {
    var doubled := if initial * 2 > initial + 1800 then initial * 2 else initial + 1800;
    var retry := if doubled < MAX_TIMEOUT then doubled else MAX_TIMEOUT;
    if retry > initial then Some(retry) else None
  }

  // ---- labels ----

  function Interpretation(status: ExecStatus, verify: Verify, retry: RetryOutcome): string {
    if status != Completed then "execution_not_completed"
    else if verify.Green() then
      if verify == Ran(Partial) then "completed_verified_partial"
      else if retry == RetrySucceeded then "completed_verified_passed_after_retry"
      else "completed_verified_passed"
    else if verify.Ran? then
      if retry == RetryFailed then "completed_verified_failed_after_retry" else "completed_verified_failed"
    else if retry == RetryFailed then "completed_verified_failed_after_retry"
    else "completed_verified_passed"
  }

  /** None is the ValueError for an unknown label. */
  function Recommendation(interpretation: string): Option<string> {
    if interpretation == "completed_verified_passed" then Some("no_review_needed")
    else if interpretation == "completed_verified_passed_after_retry" then Some("review_recommended")
    else if interpretation == "completed_verified_partial" then Some("review_recommended")
    else if interpretation == "completed_verified_failed_after_retry" then Some("review_recommended_after_retry_failure")
    else if interpretation == "completed_verified_failed" then Some("review_recommended")
    else if interpretation == "execution_not_completed" then Some("review_recommended")
    else None
  }

  // ---- what the history says, independently of the loop ----

  /** The single timeout retry goes to the first attempt that times out. */
  predicate Retried(o: Oracle, t: nat, deferred: bool, k: nat) {
    !deferred && t < MAX_TIMEOUT && o.first(k) == TimedOut && forall j :: 0 <= j < k ==> o.first(j) != TimedOut
  }

  function StatusOf(o: Oracle, t: nat, deferred: bool, k: nat): ExecStatus {
    if Retried(o, t, deferred, k) then o.retried else o.first(k)
  }

  function VerifyOf(o: Oracle, t: nat, deferred: bool, k: nat): Verify {
    if StatusOf(o, t, deferred, k) == Completed && !deferred then Ran(o.verdict(k)) else NotRun
  }

  function RecordOf(o: Oracle, t: nat, deferred: bool, k: nat): AttemptRecord {
    AttemptRecord(k + 1, k > 0, StatusOf(o, t, deferred, k), VerifyOf(o, t, deferred, k))
  }

  predicate Repairable(o: Oracle, t: nat, deferred: bool, k: nat) {
    VerifyOf(o, t, deferred, k) == Ran(Failed(true))
  }

  /** Repair stops at the first attempt that is not repairable, or when the budget is spent, and the
      result describes the attempt it stopped at. This fixes the result uniquely. */
  predicate AgreesWithHistory(o: Oracle, t: nat, deferred: bool, max: nat, r: Result) {
    && r.repairsUsed <= max && r.attemptCount == 1 + r.repairsUsed
    && (forall k :: 0 <= k < r.repairsUsed ==> Repairable(o, t, deferred, k))
    && (Repairable(o, t, deferred, r.repairsUsed) ==> r.repairsUsed == max)
    && r.status == StatusOf(o, t, deferred, r.repairsUsed) && r.verify == VerifyOf(o, t, deferred, r.repairsUsed)
    && (r.repairsUsed == 0 <==> r.repair == NoRepair) && (r.repairsUsed == 0 <==> r.retry == NotAttempted)
    && (r.repair == RepairSucceeded <==> r.repairsUsed > 0 && r.verify.Green())
    && (r.retry == RetrySucceeded <==> r.repair == RepairSucceeded)
    && r.interpretation == Interpretation(r.status, r.verify, r.retry)
    && Recommendation(r.interpretation) == Some(r.recommendation)
  }

  function Sum(s: seq<nat>): nat { if s == [] then 0 else Sum(s[..|s| - 1]) + s[|s| - 1] }

  lemma SumAppends(s: seq<nat>, x: nat)
    ensures Sum(s + [x]) == Sum(s) + x
  {
    assert (s + [x])[..|s|] == s;
  }

  predicate RetrySpent(o: Oracle, t: nat, deferred: bool, k: nat) {
    exists j :: 0 <= j < k && Retried(o, t, deferred, j)
  }

  /** Ends for every oracle. `grants` are the timeouts of the Codex calls, in order. */
  method ExecutePrepared(o: Oracle, t: nat, deferred: bool, max: nat) returns (r: Result, ghost grants: seq<nat>)
    requires 1 <= t <= MAX_TIMEOUT
    // budgets
    ensures r.attemptCount == 1 + r.repairsUsed <= 1 + max
    ensures r.timeoutRetries <= 1 && |grants| == r.attemptCount + r.timeoutRetries
    ensures r.timeoutRetrySeconds == if r.timeoutRetries == 1 then TimeoutRetrySeconds(t) else None
    ensures r.timeoutRetries == 1 <==> RetrySpent(o, t, deferred, r.attemptCount)
    ensures Sum(grants) == r.attemptCount * t + (if r.timeoutRetrySeconds.Some? then r.timeoutRetrySeconds.value else 0)
    ensures Sum(grants) <= (1 + max) * t + (if TimeoutRetrySeconds(t).Some? then TimeoutRetrySeconds(t).value else 0)
    // one record per attempt, none when validation is deferred
    ensures |r.attempts| == if deferred then 0 else r.attemptCount
    ensures forall k :: 0 <= k < |r.attempts| ==> r.attempts[k] == RecordOf(o, t, deferred, k)
    ensures r.firstOutcome == o.first(0)
    ensures AgreesWithHistory(o, t, deferred, max, r)
  {
    var run;
    run, grants := RunLoop(o, t, deferred, max);
    r := Conclude(run);
    MoreAttempts(r.attemptCount, 1 + max, t);
  }

  lemma MoreAttempts(m: nat, n: nat, t: nat)
    requires m <= n
    ensures m * t <= n * t
  {
  }

  method RunLoop(o: Oracle, t: nat, deferred: bool, max: nat) returns (run: Result, ghost grants: seq<nat>)
    requires 1 <= t <= MAX_TIMEOUT
    ensures run.attemptCount == 1 + run.repairsUsed <= 1 + max
    ensures |grants| == run.attemptCount + run.timeoutRetries
    ensures run.timeoutRetries == if RetrySpent(o, t, deferred, run.attemptCount) then 1 else 0
    ensures run.timeoutRetrySeconds == if run.timeoutRetries == 1 then TimeoutRetrySeconds(t) else None
    ensures Sum(grants) == run.attemptCount * t + (if run.timeoutRetrySeconds.Some? then run.timeoutRetrySeconds.value else 0)
    ensures forall k :: 0 <= k < run.repairsUsed ==> Repairable(o, t, deferred, k)
    ensures Repairable(o, t, deferred, run.repairsUsed) ==> run.repairsUsed == max
    ensures run.status == StatusOf(o, t, deferred, run.repairsUsed) && run.verify == VerifyOf(o, t, deferred, run.repairsUsed)
    ensures run.firstOutcome == o.first(0)
    ensures |run.attempts| == if deferred then 0 else run.attemptCount
    ensures forall k :: 0 <= k < |run.attempts| ==> run.attempts[k] == RecordOf(o, t, deferred, k)
    ensures run.repair == NoRepair && run.retry == if run.repairsUsed == 0 then NotAttempted else RetryFailed
  {
    var attemptCount, retry, repairsUsed := 0, NotAttempted, 0;
    var attempts: seq<AttemptRecord> := [];
    var timeoutRetries, retrySeconds := 0, None;
    var firstOutcome := NotStarted;
    var status, verify := NotStarted, NotRun;
    grants := [];
    while true
      invariant attemptCount == repairsUsed <= max
      invariant |grants| == attemptCount + timeoutRetries
      invariant timeoutRetries == if RetrySpent(o, t, deferred, attemptCount) then 1 else 0
      invariant retrySeconds == if timeoutRetries == 1 then TimeoutRetrySeconds(t) else None
      invariant Sum(grants) == attemptCount * t + (if retrySeconds.Some? then retrySeconds.value else 0)
      invariant forall k :: 0 <= k < repairsUsed ==> Repairable(o, t, deferred, k)
      invariant attemptCount > 0 ==> firstOutcome == o.first(0)
      invariant |attempts| == if deferred then 0 else attemptCount
      invariant forall k :: 0 <= k < |attempts| ==> attempts[k] == RecordOf(o, t, deferred, k)
      invariant retry == if repairsUsed == 0 then NotAttempted else RetryFailed
      decreases max - repairsUsed
    {
      var k := attemptCount;
      attemptCount := attemptCount + 1;
      if k == 0 { firstOutcome := o.first(k); }
      var longer;
      status, verify, longer := RunAttempt(o, t, deferred, k, timeoutRetries);
      Grant(grants, k, t, longer);
      grants := grants + [t] + (if longer.Some? then [longer.value] else []);
      if longer.Some? {
        timeoutRetries, retrySeconds := timeoutRetries + 1, longer;
      }
      if !deferred { attempts := attempts + [AttemptRecord(attemptCount, repairsUsed > 0, status, verify)]; }
      if !(verify == Ran(Failed(true)) && repairsUsed < max) { break; }
      repairsUsed := repairsUsed + 1;
      retry := RetryFailed;
    }
    run := Result(status, verify, attemptCount, retry, repairsUsed, NoRepair, firstOutcome, timeoutRetries, retrySeconds,
                  attempts, "", "");
  }

  method Conclude(run: Result) returns (r: Result)
    requires run.repair == NoRepair && run.retry == if run.repairsUsed == 0 then NotAttempted else RetryFailed
    ensures r == run.(retry := r.retry, repair := r.repair, interpretation := Interpretation(r.status, r.verify, r.retry),
                      recommendation := r.recommendation)
    ensures r.repairsUsed == 0 ==> r.repair == NoRepair && r.retry == NotAttempted
    ensures r.repairsUsed > 0 && r.verify.Green() ==> r.repair == RepairSucceeded && r.retry == RetrySucceeded
    ensures r.repairsUsed > 0 && !r.verify.Green() ==> r.repair == RepairExhausted && r.retry == RetryFailed
    ensures Recommendation(r.interpretation) == Some(r.recommendation)
  {
    r := run;
    if r.repairsUsed > 0 {
      if r.verify.Green() {
        r := r.(retry := RetrySucceeded, repair := RepairSucceeded);
      } else {
        r := r.(repair := RepairExhausted);
      }
    }
    LabelKnown(r.status, r.verify, r.retry);
    r := r.(interpretation := Interpretation(r.status, r.verify, r.retry));
    r := r.(recommendation := Recommendation(r.interpretation).value);
  }

  lemma Grant(grants: seq<nat>, k: nat, t: nat, longer: Option<nat>)
    ensures Sum(grants + [t] + (if longer.Some? then [longer.value] else [])) ==
            Sum(grants) + t + (if longer.Some? then longer.value else 0)
    ensures (k + 1) * t == k * t + t
  {
    SumAppends(grants, t);
    if longer.Some? { SumAppends(grants + [t], longer.value); } else { assert grants + [t] + [] == grants + [t]; }
  }

  /** The recommendation never raises on a label the loop can produce. */
  lemma LabelKnown(status: ExecStatus, verify: Verify, retry: RetryOutcome)
    ensures Recommendation(Interpretation(status, verify, retry)).Some?
  {
  }

  /** One attempt: a Codex call, for the first timeout only a second call with more time, and validation. */
  method RunAttempt(o: Oracle, t: nat, deferred: bool, k: nat, spent: nat)
    returns (status: ExecStatus, verify: Verify, longer: Option<nat>)
    requires 1 <= t <= MAX_TIMEOUT
    requires spent == if RetrySpent(o, t, deferred, k) then 1 else 0
    ensures status == StatusOf(o, t, deferred, k) && verify == VerifyOf(o, t, deferred, k)
    ensures longer == if Retried(o, t, deferred, k) then TimeoutRetrySeconds(t) else None
    ensures longer.Some? ==> spent == 0
    ensures RetrySpent(o, t, deferred, k + 1) <==> spent == 1 || longer.Some?
  {
    TimedOutBefore(o, t, deferred, k);
    status, longer := o.first(k), None;
    if status == TimedOut && !deferred && spent < 1 {
      longer := TimeoutRetrySeconds(t);
      if longer.Some? { status := o.retried; }
    }
    verify := NotRun;
    if status == Completed && !deferred { verify := Ran(o.verdict(k)); }
  }

  /** An earlier timeout means the retry is spent. */
  lemma TimedOutBefore(o: Oracle, t: nat, deferred: bool, k: nat)
    ensures (exists j :: 0 <= j < k && o.first(j) == TimedOut) && !deferred && t < MAX_TIMEOUT <==> RetrySpent(o, t, deferred, k)
  {
    if j :| 0 <= j < k && o.first(j) == TimedOut && !deferred && t < MAX_TIMEOUT {
      var i := FirstTimeout(o, j);
      assert Retried(o, t, deferred, i);
    }
  }

  lemma {:induction false} FirstTimeout(o: Oracle, j: nat) returns (i: nat)
    requires o.first(j) == TimedOut
    ensures i <= j && o.first(i) == TimedOut && forall l :: 0 <= l < i ==> o.first(l) != TimedOut
  {
    if l :| 0 <= l < j && o.first(l) == TimedOut { i := FirstTimeout(o, l); } else { i := j; }
  }

  // ---- labels against the history ----

  /** No review exactly for a completed run whose validation was deferred or whose only attempt passed in full. */
  lemma NoReviewIff(o: Oracle, t: nat, deferred: bool, max: nat, r: Result)
    requires AgreesWithHistory(o, t, deferred, max, r)
    ensures r.recommendation == "no_review_needed" <==>
              r.status == Completed && (deferred || (r.attemptCount == 1 && o.verdict(0) == Passed))
  {
    if r.repairsUsed > 0 { assert Repairable(o, t, deferred, 0); }
  }

  /** The after-retry labels appear exactly when repair ran and the run completed: one with a last verdict that passed in
      full, the other with one that failed. */
  lemma AfterRetryIff(o: Oracle, t: nat, deferred: bool, max: nat, r: Result)
    requires AgreesWithHistory(o, t, deferred, max, r)
    ensures r.interpretation == "completed_verified_passed_after_retry" <==>
              r.repairsUsed > 0 && r.status == Completed && o.verdict(r.repairsUsed).Passed?
    ensures r.interpretation == "completed_verified_failed_after_retry" <==>
              r.repairsUsed > 0 && r.status == Completed && !o.verdict(r.repairsUsed).Passed? && !o.verdict(r.repairsUsed).Partial?
  {
    if r.repairsUsed > 0 { assert Repairable(o, t, deferred, 0); }
    assert |"completed_verified_passed_after_retry"| == |"completed_verified_failed_after_retry"| == 37;
    assert "completed_verified_passed_after_retry"[19] == 'p' && "completed_verified_failed_after_retry"[19] == 'f';
  }

  /** The history leaves the loop no choice: two results for the same answers report the same run. */
  lemma HistoryFixesResult(o: Oracle, t: nat, deferred: bool, max: nat, r: Result, r': Result)
    requires AgreesWithHistory(o, t, deferred, max, r) && AgreesWithHistory(o, t, deferred, max, r')
    ensures r.repairsUsed == r'.repairsUsed && r.attemptCount == r'.attemptCount
    ensures r.status == r'.status && r.verify == r'.verify && r.retry == r'.retry && r.repair == r'.repair
    ensures r.interpretation == r'.interpretation && r.recommendation == r'.recommendation
  {
  }
}
