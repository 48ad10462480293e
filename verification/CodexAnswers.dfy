/** What each label of the Codex loop means, said of what Codex and the validator answered. */
module CodexAnswers {
  import opened CodexLoop

  /** The last attempt completed and was validated with one of these verdicts. */
  predicate EndedWith(o: Oracle, deferred: bool, r: Result, verdicts: set<Verdict>) {
    r.status == Completed && !deferred && o.verdict(r.repairsUsed) in verdicts
  }

  const FAILURES := {Failed(true), Failed(false), ExecutorError}

  /** Repairs take verdicts, so a deferred validation means a single attempt. */
  lemma DeferredIsSingle(o: Oracle, t: nat, deferred: bool, max: nat, r: Result)
    requires AgreesWithHistory(o, t, deferred, max, r)
    ensures deferred ==> r.repairsUsed == 0
    ensures r.verify == if r.status == Completed && !deferred then Ran(o.verdict(r.repairsUsed)) else NotRun
  {
    if r.repairsUsed > 0 { assert Repairable(o, t, deferred, 0); }
  }

  lemma FailureVerdicts(v: Verdict)
    ensures v in FAILURES <==> v.Failed? || v.ExecutorError?
  {
  }

  /** Each label, exactly: whether the run completed, whether it needed repair, and the last verdict decide. */
  lemma LabelIff(o: Oracle, t: nat, deferred: bool, max: nat, r: Result)
    requires AgreesWithHistory(o, t, deferred, max, r)
    ensures r.interpretation == "execution_not_completed" <==> r.status != Completed
    ensures r.interpretation == "completed_verified_partial" <==> EndedWith(o, deferred, r, {Partial})
    ensures r.interpretation == "completed_verified_passed" <==>
              (r.status == Completed && deferred) || (r.repairsUsed == 0 && EndedWith(o, deferred, r, {Passed}))
    ensures r.interpretation == "completed_verified_passed_after_retry" <==> r.repairsUsed > 0 && EndedWith(o, deferred, r, {Passed})
    ensures r.interpretation == "completed_verified_failed" <==> r.repairsUsed == 0 && EndedWith(o, deferred, r, FAILURES)
    ensures r.interpretation == "completed_verified_failed_after_retry" <==> r.repairsUsed > 0 && EndedWith(o, deferred, r, FAILURES)
  {
    DeferredIsSingle(o, t, deferred, max, r);
    FailureVerdicts(o.verdict(r.repairsUsed));
    LabelsDiffer();
  }

  lemma LabelsDiffer()
    ensures |"execution_not_completed"| == 23 && |"completed_verified_partial"| == 26 && |"completed_verified_passed"| == 25
    ensures |"completed_verified_failed"| == 25 && "completed_verified_failed"[19] == 'f' && "completed_verified_passed"[19] == 'p'
    ensures |"completed_verified_passed_after_retry"| == 37 && "completed_verified_passed_after_retry"[19] == 'p'
    ensures |"completed_verified_failed_after_retry"| == 37 && "completed_verified_failed_after_retry"[19] == 'f'
  {
  }

  /** And each recommendation: none needed after a full first pass or a deferred validation, the stronger one after a
      failed repair, and a review in every other case. */
  lemma RecommendationIff(o: Oracle, t: nat, deferred: bool, max: nat, r: Result)
    requires AgreesWithHistory(o, t, deferred, max, r)
    ensures r.recommendation == "no_review_needed" <==>
              (r.status == Completed && deferred) || (r.repairsUsed == 0 && EndedWith(o, deferred, r, {Passed}))
    ensures r.recommendation == "review_recommended_after_retry_failure" <==> r.repairsUsed > 0 && EndedWith(o, deferred, r, FAILURES)
    ensures r.recommendation == "review_recommended" <==>
              || r.status != Completed || EndedWith(o, deferred, r, {Partial})
              || (r.repairsUsed > 0 && EndedWith(o, deferred, r, {Passed}))
              || (r.repairsUsed == 0 && EndedWith(o, deferred, r, FAILURES))
  {
    LabelIff(o, t, deferred, max, r);
    LabelsDiffer();
    assert |"no_review_needed"| == 16 && |"review_recommended"| == 18 && |"review_recommended_after_retry_failure"| == 38;
  }

  /** The outcomes recorded beside the labels: of the repair and of the retry it counts as. */
  lemma RepairIff(o: Oracle, t: nat, deferred: bool, max: nat, r: Result)
    requires AgreesWithHistory(o, t, deferred, max, r)
    ensures r.repair == NoRepair <==> r.repairsUsed == 0
    ensures r.repair == RepairSucceeded <==> r.repairsUsed > 0 && EndedWith(o, deferred, r, {Passed, Partial})
    ensures r.repair == RepairExhausted <==> r.repairsUsed > 0 && !EndedWith(o, deferred, r, {Passed, Partial})
    ensures r.retry == NotAttempted <==> r.repairsUsed == 0
    ensures r.retry == RetrySucceeded <==> r.repair == RepairSucceeded
    ensures r.retry == RetryFailed <==> r.repair == RepairExhausted
  {
    DeferredIsSingle(o, t, deferred, max, r);
  }

  /** Where the loop stops: a further attempt follows exactly an attempt that completed with a failure that can be acted
      on, while the budget lasts. */
  lemma StopsIff(o: Oracle, t: nat, deferred: bool, max: nat, r: Result, k: nat)
    requires AgreesWithHistory(o, t, deferred, max, r) && k <= r.repairsUsed
    ensures k < r.repairsUsed <==>
              k < max && !deferred && o.verdict(k) == Failed(true)
              && (o.first(k) == Completed || (o.first(k) == TimedOut && t < MAX_TIMEOUT && o.retried == Completed && NoTimeoutBefore(o, k)))
  {
    assert Repairable(o, t, deferred, k) <==> k < r.repairsUsed || (k == r.repairsUsed && Repairable(o, t, deferred, k));
  }

  predicate NoTimeoutBefore(o: Oracle, k: nat) { forall j :: 0 <= j < k ==> o.first(j) != TimedOut }

  /** The status reported: the answer of the last attempt, or of its retry if it was the first to time out. */
  lemma StatusIs(o: Oracle, t: nat, deferred: bool, max: nat, r: Result)
    requires AgreesWithHistory(o, t, deferred, max, r)
    ensures r.status == if o.first(r.repairsUsed) == TimedOut && !deferred && t < MAX_TIMEOUT && NoTimeoutBefore(o, r.repairsUsed)
                        then o.retried else o.first(r.repairsUsed)
  {
  }

  /** What the record of attempt k tells, for the one recorded and any verdict. */
  lemma RecordTells(o: Oracle, t: nat, deferred: bool, k: nat, v: Verdict)
    ensures var a := RecordOf(o, t, deferred, k);
      && a.number == k + 1 && (a.repair <==> a.number > 1)
      && (a.verify == Ran(v) <==> a.status == Completed && !deferred && o.verdict(k) == v)
      && a.status == if o.first(k) == TimedOut && !deferred && t < MAX_TIMEOUT && NoTimeoutBefore(o, k) then o.retried else o.first(k)
  {
  }
}
