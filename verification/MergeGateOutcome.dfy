/** What the gate tells its caller beside the decision: pass or fail, the failure type, and whether to retry
    (orchestrator/merge_gate.py). */
module MergeGateOutcome {
  import opened Options
  import opened Text
  import opened Values
  import opened Policies
  import opened GatePolicy
  import opened GithubSnapshot
  import opened MergeGate
  import opened MergeGateTheorems

  // ---- pass or fail ----

  const RUBRIC_NOT_ALL_PASS := "rubric_not_all_pass"
  const CI_NOT_GREEN := "required_ci_checks_not_green"
  const DECLARED_MISMATCH := "declared_category_does_not_match_observed_category"
  const FORBIDDEN_TOUCHED := "observed_category_forbidden_paths_touched"
  const DIFF_TOO_LARGE := "diff_size_limit_exceeded"
  const NOT_AUTO_MERGE := "category_not_auto_merge_allowed"

  function Then(found: seq<string>, c: bool, reason: string): (r: seq<string>)
    ensures r == [] <==> found == [] && !c
  {
    if c then found + [reason] else found
  }

  function RubricFails(r: Rubric, p: Policy): (fails: seq<string>)
    ensures fails == [] <==> (p.switches.rubricAllPass ==> r.mergeEligible)
  {
    if !p.switches.rubricAllPass || r.mergeEligible then []
    else if r.failReasons != [] then r.failReasons
    else [RUBRIC_NOT_ALL_PASS]
  }

  /** All reasons against passing, in order, repeats included. Categories are compared as they stand here. */
  function RawFailReasons(r: Rubric, p: Policy): seq<string> {
    var s := p.switches;
    var a := Then(RubricFails(r, p), s.ciGreen && !r.ciGreen, CI_NOT_GREEN);
    var b := Then(a, s.declaredEqualsObserved && r.declared != r.observed, DECLARED_MISMATCH);
    var c := Then(b, s.noForbiddenPaths && !r.forbiddenUntouched, FORBIDDEN_TOUCHED);
    var d := Then(c, s.sizeWithinLimit && !r.sizeWithinLimit, DIFF_TOO_LARGE);
    Then(d, r.observed !in p.autoMerge, NOT_AUTO_MERGE)
  }

  function FirstOfEach(reasons: seq<string>): seq<string> {
    if reasons == [] then []
    else
      var before, reason := FirstOfEach(reasons[..|reasons| - 1]), reasons[|reasons| - 1];
      if reason in before then before else before + [reason]
  }

  method DropRepeats(reasons: seq<string>) returns (deduped: seq<string>)
    ensures deduped == FirstOfEach(reasons)
  {
    deduped := [];
    for i := 0 to |reasons|
      invariant deduped == FirstOfEach(reasons[..i])
    {
      assert reasons[..i + 1][..i] == reasons[..i];
      if reasons[i] !in deduped { deduped := deduped + [reasons[i]]; }
    }
    assert reasons[..|reasons|] == reasons;
  }

  lemma {:induction false} FirstOfEachMeaning(reasons: seq<string>)
    ensures forall x :: x in FirstOfEach(reasons) <==> x in reasons
    ensures forall i, j :: 0 <= i < j < |FirstOfEach(reasons)| ==> FirstOfEach(reasons)[i] != FirstOfEach(reasons)[j]
  {
    if reasons != [] {
      FirstOfEachMeaning(reasons[..|reasons| - 1]);
      assert reasons == reasons[..|reasons| - 1] + [reasons[|reasons| - 1]];
    }
  }

  function FailReasons(r: Rubric, p: Policy): seq<string> { FirstOfEach(RawFailReasons(r, p)) }

  /** The gate passes exactly when every check that is switched on holds and the category may be merged. */
  lemma PassesIff(r: Rubric, p: Policy)
    ensures FailReasons(r, p) == [] <==>
      && (p.switches.rubricAllPass ==> r.mergeEligible) && (p.switches.ciGreen ==> r.ciGreen)
      && (p.switches.declaredEqualsObserved ==> r.declared == r.observed)
      && (p.switches.noForbiddenPaths ==> r.forbiddenUntouched) && (p.switches.sizeWithinLimit ==> r.sizeWithinLimit)
      && r.observed in p.autoMerge
  {
    var raw := RawFailReasons(r, p);
    FirstOfEachMeaning(raw);
    if raw != [] { assert raw[0] in FailReasons(r, p); }
    if FailReasons(r, p) != [] { assert FailReasons(r, p)[0] in raw; }
  }

  // ---- failure type ----

  datatype Failure =
    | NoFailure | ExecutionFailure | MissingSignal | MergeabilityFailure | ReviewBlocked | PolicyFailure
    | LifecycleBlocked | WriteAuthorityBlocked

  function Name(f: Failure): string {
    match f
    case NoFailure => "none"
    case ExecutionFailure => "execution_failure"
    case MissingSignal => "missing_signal"
    case MergeabilityFailure => "mergeability_failure"
    case ReviewBlocked => "review_blocked"
    case PolicyFailure => "policy_failure"
    case LifecycleBlocked => "lifecycle_blocked"
    case WriteAuthorityBlocked => "write_authority_blocked"
  }

  const MISSING_SIGNALS := {"changed_files_missing", "diff_line_stats_missing", "write_github_state_unavailable", "write_target_identity_missing"}
  const BROKEN := {"failed", "timed_out", "not_started", "not_implemented"}
  const UNFINISHED := {"pr_preparable", "checks_pending", "checks_green", "review_pending", "merge_blocked"}

  predicate Broken(execution: Option<Value>) { Lower(PlainText(execution)) in BROKEN }

  predicate AllBlank(texts: seq<string>) { forall i :: 0 <= i < |texts| ==> Strip(texts[i]) == "" }

  predicate NamesMissing(texts: seq<string>) { exists i :: 0 <= i < |texts| && Strip(texts[i]) in MISSING_SIGNALS }

  function FailureOf(fails: seq<string>, reasons: seq<Reason>, writeReasons: seq<WriteReason>, d: Decision, v: View,
                     execution: Option<Value>): Failure
  {
    if Broken(execution) then ExecutionFailure
    else if NamesMissing(fails) || ChangedFilesMissing in reasons || DiffStatsMissing in reasons
            || GithubUnavailable in writeReasons || TargetIdentityMissing in writeReasons then MissingSignal
    else if v.mergeability in MERGE_BLOCKED then MergeabilityFailure
    else if v.review == "changes_requested" then ReviewBlocked
    else if !AllBlank(fails) || reasons != [] then PolicyFailure
    else if d.lifecycle in UNFINISHED then LifecycleBlocked
    else if !Cleared(d.write) && writeReasons != [] then WriteAuthorityBlocked
    else NoFailure
  }

  // ---- retry or escalate ----

  datatype Advice = NotRequired | Retry | Escalate

  datatype Replan = Replan(failure: Failure, remaining: nat, advice: Advice, exhausted: bool)

  function ReplanOf(failure: Failure, retry: RetryReplan, prior: int): Replan {
    var spent := if prior > 0 then prior else 0;
    var remaining := if retry.maxAttempts > spent then retry.maxAttempts - spent else 0;
    if failure == NoFailure then Replan(failure, remaining, NotRequired, false)
    else if Name(failure) !in retry.retriable then Replan(failure, remaining, Escalate, false)
    else if remaining == 0 then Replan(failure, remaining, Escalate, true)
    else Replan(failure, remaining, Retry, false)
  }

  /** The whole answer of the gate. */
  datatype Outcome = Outcome(decision: Decision, passed: bool, fails: seq<string>, reasons: seq<Reason>,
                             writeReasons: seq<WriteReason>, replan: Replan)

  /** The answer for a change under a policy and a view of GitHub: the decision with its exact reasons, and what follows
      from them. */
  ghost predicate Judges(o: Outcome, r: Rubric, c: Change, p: Policy, v: View, prior: int, execution: Option<Value>, glob: Glob) {
    && o.decision == Decide(r, c, p, v, glob)
    && o.fails == FailReasons(r, p) && (o.passed <==> o.fails == [])
    && Lists(o.reasons, Facts(r, c, p.auto, glob))
    && (o.writeReasons == [] <==> Cleared(o.decision.write))
    && ExplainsWrite(o.writeReasons, p.write, r.observed, FactsOf(p.write, o.decision, v))
    && o.replan == ReplanOf(FailureOf(o.fails, o.reasons, o.writeReasons, o.decision, v, execution), p.retry, prior)
  }

  /** The answer to a request, read from its documents. */
  ghost predicate Answers(o: Outcome, q: Request, prior: int, execution: Option<Value>, glob: Glob) {
    Judges(o, q.rubric, ChangeOf(q), GateReading(q.policy), ViewOf(q.signals), prior, execution, glob)
  }

  method CollectFails(r: Rubric, p: Policy) returns (passed: bool, fails: seq<string>)
    ensures fails == FailReasons(r, p) && (passed <==> fails == [])
  {
    var s, found := p.switches, [];
    if s.rubricAllPass && !r.mergeEligible {
      found := if r.failReasons != [] then r.failReasons else [RUBRIC_NOT_ALL_PASS];
    }
    if s.ciGreen && !r.ciGreen { found := found + [CI_NOT_GREEN]; }
    if s.declaredEqualsObserved && r.declared != r.observed { found := found + [DECLARED_MISMATCH]; }
    if s.noForbiddenPaths && !r.forbiddenUntouched { found := found + [FORBIDDEN_TOUCHED]; }
    if s.sizeWithinLimit && !r.sizeWithinLimit { found := found + [DIFF_TOO_LARGE]; }
    var allowed := r.observed in p.autoMerge;
    if !allowed { found := found + [NOT_AUTO_MERGE]; }
    assert found == RawFailReasons(r, p);
    fails := DropRepeats(found);
    PassesIff(r, p);
    passed := fails == [] && allowed;
  }

  method ApplyMergeGate(q: Request, prior: int, execution: Option<Value>, glob: Glob) returns (o: Outcome)
    ensures Answers(o, q, prior, execution, glob)
  {
    var passed, fails := CollectFails(q.rubric, GateReading(q.policy));
    var d, reasons, writeReasons := DeriveDecision(q, glob);
    var failure := FailureOf(fails, reasons, writeReasons, d, ViewOf(q.signals), execution);
    o := Outcome(d, passed, fails, reasons, writeReasons, ReplanOf(failure, GateReading(q.policy).retry, prior));
  }

  // ---- what the answers mean ----

  lemma ClearedIsApproved(q: Request, glob: Glob)
    requires Cleared(Gate(q, glob).write)
    ensures Gate(q, glob).lifecycle == APPROVED && Gate(q, glob).progression == AutoPrCandidate && GithubAgrees(ViewOf(q.signals))
  {
    var d := Gate(q, glob);
    WriteFollowsLifecycle(GateReading(q.policy).write, q.rubric.observed, d.progression != ManualOnly, d.progression == AutoPrCandidate, ViewOf(q.signals));
    ApprovedIff(d.progression != ManualOnly, d.progression == AutoPrCandidate, ViewOf(q.signals));
  }

  lemma NoReasonsIff(o: Outcome, q: Request, glob: Glob)
    requires o.decision == Gate(q, glob) && Lists(o.reasons, Facts(q.rubric, ChangeOf(q), GateReading(q.policy).auto, glob))
    ensures o.reasons == [] <==> o.decision.progression != ManualOnly
  {
    var r, c, p := q.rubric, ChangeOf(q), GateReading(q.policy).auto;
    ListsMeans(o.reasons, r, c, p, glob);
    if o.reasons != [] { assert Objection(o.reasons[0], r, c, p, glob); }
  }

  /** Nothing is held against a change exactly when it was executed, no fail reason says anything, and writing is cleared:
      the seven kinds of failure leave no gap. */
  lemma NoFailureIff(o: Outcome, q: Request, prior: int, execution: Option<Value>, glob: Glob)
    requires Answers(o, q, prior, execution, glob)
    ensures o.replan.failure == NoFailure <==> !Broken(execution) && AllBlank(o.fails) && Cleared(o.decision.write)
  {
    NoReasonsIff(o, q, glob);
    if Cleared(o.decision.write) { ClearedIsApproved(q, glob); }
    NoneLeft(o.fails, o.reasons, o.writeReasons, o.decision, ViewOf(q.signals), execution);
  }

  lemma NoneLeft(fails: seq<string>, reasons: seq<Reason>, writeReasons: seq<WriteReason>, d: Decision, v: View, execution: Option<Value>)
    requires writeReasons == [] <==> Cleared(d.write)
    requires Cleared(d.write) ==> reasons == [] && d.lifecycle == APPROVED && GithubAgrees(v)
    ensures FailureOf(fails, reasons, writeReasons, d, v, execution) == NoFailure <==>
            !Broken(execution) && AllBlank(fails) && Cleared(d.write)
  {
    assert "clean" !in MERGE_BLOCKED && APPROVED !in UNFINISHED;
    if AllBlank(fails) { BlankNamesNothing(fails); }
  }

  lemma BlankNamesNothing(texts: seq<string>)
    requires AllBlank(texts)
    ensures !NamesMissing(texts)
  {
    assert "" !in MISSING_SIGNALS;
  }

  /** So while write authority is off, as it is by default, every change is a failure of some kind. */
  lemma DisabledAlwaysFails(o: Outcome, q: Request, prior: int, execution: Option<Value>, glob: Glob)
    requires Answers(o, q, prior, execution, glob) && !GateReading(q.policy).write.enabled
    ensures o.replan.failure != NoFailure && o.replan.advice != NotRequired
  {
    DisabledFails(o, q.rubric, ChangeOf(q), GateReading(q.policy), ViewOf(q.signals), prior, execution, glob);
  }

  lemma DisabledFails(o: Outcome, r: Rubric, c: Change, p: Policy, v: View, prior: int, execution: Option<Value>, glob: Glob)
    requires Judges(o, r, c, p, v, prior, execution, glob) && !p.write.enabled
    ensures o.replan.failure != NoFailure && o.replan.advice != NotRequired
  {
    assert o.decision.write == Disabled;
    NoneLeft(o.fails, o.reasons, o.writeReasons, o.decision, v, execution);
  }

  /** A retry is advised exactly for a retriable failure within the budget, an escalation exactly for any other failure. */
  lemma AdviceIff(failure: Failure, retry: RetryReplan, prior: int)
    ensures var a := ReplanOf(failure, retry, prior).advice;
      && (a == Retry <==> failure != NoFailure && Name(failure) in retry.retriable && prior < retry.maxAttempts && retry.maxAttempts > 0)
      && (a == Escalate <==> failure != NoFailure && (Name(failure) !in retry.retriable || prior >= retry.maxAttempts || retry.maxAttempts == 0))
  {
  }

  /** The retries advised over the attempts 0, 1, ... of one job, whatever each of them fails with. */
  function Retries(failures: seq<Failure>, retry: RetryReplan): nat {
    if failures == [] then 0
    else
      var n := |failures| - 1;
      Retries(failures[..n], retry) + if ReplanOf(failures[n], retry, n).advice == Retry then 1 else 0
  }

  lemma {:induction false} RetriesAreBounded(failures: seq<Failure>, retry: RetryReplan)
    ensures Retries(failures, retry) <= retry.maxAttempts && Retries(failures, retry) <= |failures|
  {
    if failures != [] {
      var n := |failures| - 1;
      RetriesAreBounded(failures[..n], retry);
      AdviceIff(failures[n], retry, n);
    }
  }
}
