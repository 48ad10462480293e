/** What the gate says of a change, label by label and reason by reason. */
module GateAnswers {
  import opened Options
  import opened Text
  import opened Values
  import opened Policies
  import opened GatePolicy
  import opened GithubSnapshot
  import opened ChangedPaths
  import opened MergeGate
  import opened MergeGateTheorems
  import opened MergeGateOutcome

  // ---- lifecycle ----

  /** GitHub's state is there and says which branch it is about. */
  predicate Seen(v: View) { v.available && v.repository != "" && v.targetRef != "" }

  predicate Stuck(v: View) { v.review == "changes_requested" || v.mergeability in {"blocked", "behind", "dirty", "draft"} }

  /** Every label of the lifecycle, exactly. */
  lemma LifecycleIff(eligible: bool, autoPr: bool, v: View)
    ensures var l, moving := LifecycleOf(eligible, autoPr, v), eligible && autoPr && Seen(v) && !Stuck(v);
      && (l == "manual_only" <==> !eligible)
      && (l == "policy_eligible" <==> eligible && !autoPr)
      && (l == "auto_pr_candidate" <==> eligible && autoPr && !Seen(v))
      && (l == "merge_blocked" <==> eligible && autoPr && Seen(v) && Stuck(v))
      && (l == "checks_pending" <==> moving && v.checks == "pending")
      && (l == "pr_preparable" <==> moving && v.checks != "pending" && v.checks != "passing")
      && (l == "review_pending" <==> moving && v.checks == "passing" && v.review != "approved")
      && (l == "checks_green" <==> moving && v.checks == "passing" && v.review == "approved" && v.mergeability != "clean")
      && (l == "approved_for_merge" <==> moving && v.checks == "passing" && v.review == "approved" && v.mergeability == "clean")
  {
    LabelsDiffer();
  }

  lemma LabelsDiffer()
    ensures |"manual_only"| == 11 && |"policy_eligible"| == 15 && |"auto_pr_candidate"| == 17 && |"merge_blocked"| == 13
    ensures |"checks_pending"| == 14 && |"pr_preparable"| == 13 && |"review_pending"| == 14 && |"approved_for_merge"| == 18
    ensures |"checks_green"| == 12 && "merge_blocked"[0] == 'm' && "pr_preparable"[0] == 'p'
    ensures "checks_pending"[0] == 'c' && "review_pending"[0] == 'r' && "pending" != "passing"
  {
    assert "pending"[1] == 'e' && "passing"[1] == 'a';
  }

  // ---- reasons against progression ----

  /** Some changed file matches a pattern, or ends like one when lower-cased. */
  predicate Matched(glob: Glob, files: seq<string>, patterns: seq<string>) {
    exists i, j :: 0 <= i < |files| && 0 <= j < |patterns| && glob(files[i], patterns[j])
  }

  predicate Ending(files: seq<string>, endings: seq<string>) {
    exists i, j :: 0 <= i < |files| && 0 <= j < |endings| && |endings[j]| <= |files[i]|
      && Lower(files[i])[|files[i]| - |endings[j]|..] == endings[j]
  }

  predicate Exceeds(limit: nat, n: int) { limit > 0 && n > limit }

  /** What holds against the change, from the rubric and the category's own entry. */
  predicate AgainstRubric(x: Reason, r: Rubric, p: AutoProgression) {
    match x
    case DeclaredObservedMismatch => Strip(r.declared) != Strip(r.observed)
    case CategoryNotEligible => Strip(r.observed) !in p.eligible
    case CategoryConstraintsMissing => Strip(r.observed) in p.eligible && Find(p.thresholds, Strip(r.observed)).None?
    case DiffSizeLimitExceeded => !r.sizeWithinLimit
    case TestsNotDeclared => !r.testsDeclared
    case TestsNotExecuted => !r.testsExecuted
    case TestsNotPassed => !r.testsPassed
    case CiNotGreen => !r.ciGreen
    case _ => false
  }

  /** ... and from the files and lines, against the limits and patterns of the policy and of the entry, if there is one. */
  predicate AgainstFiles(x: Reason, r: Rubric, c: Change, p: AutoProgression, own: Option<Threshold>, glob: Glob) {
    match x
    case ForbiddenPathTouched => !r.forbiddenUntouched || (own.Some? && Matched(glob, c.files, own.value.forbidden))
    case ChangedFilesMissing => c.files == []
    case DiffStatsMissing => !c.statsPresent
    case FilesCountExceeded => Exceeds(p.changedFiles, |c.files|) || (own.Some? && Exceeds(own.value.changedFiles, |c.files|))
    case DiffLinesExceeded => Exceeds(p.diffLines, c.lines) || (own.Some? && Exceeds(own.value.diffLines, c.lines))
    case GeneratedPathTouched => Matched(glob, c.files, p.generated)
    case BinaryFileTouched => Ending(c.files, p.binary)
    case RuntimePathTouched => Matched(glob, c.files, p.runtime)
    case ContractPathTouched => Matched(glob, c.files, p.contract)
    case _ => false
  }

  lemma EndingIff(files: seq<string>, endings: seq<string>)
    ensures HasExtension(files, endings) <==> Ending(files, endings)
  {
    if HasExtension(files, endings) {
      var i, j :| 0 <= i < |files| && 0 <= j < |endings| && EndsWith(Lower(files[i]), endings[j]);
    }
    if Ending(files, endings) {
      var i, j :| 0 <= i < |files| && 0 <= j < |endings| && |endings[j]| <= |files[i]|
        && Lower(files[i])[|files[i]| - |endings[j]|..] == endings[j];
      assert EndsWith(Lower(files[i]), endings[j]);
    }
  }

  lemma ObjectionIff(x: Reason, r: Rubric, c: Change, p: AutoProgression, glob: Glob)
    ensures Objection(x, r, c, p, glob) <==>
            AgainstRubric(x, r, p) || AgainstFiles(x, r, c, p, Find(p.thresholds, Strip(r.observed)), glob)
  {
    EndingIff(c.files, p.binary);
  }

  /** A reason is reported exactly when it holds against the change. */
  lemma ReasonIff(o: Outcome, r: Rubric, c: Change, p: Policy, v: View, prior: int, execution: Option<Value>, glob: Glob, x: Reason)
    requires Judges(o, r, c, p, v, prior, execution, glob)
    ensures x in o.reasons <==>
            AgainstRubric(x, r, p.auto) || AgainstFiles(x, r, c, p.auto, Find(p.auto.thresholds, Strip(r.observed)), glob)
  {
    ListsMeans(o.reasons, r, c, p.auto, glob);
    ObjectionIff(x, r, c, p.auto, glob);
  }

  /** The progression: manual with any reason, else a candidate exactly when the category may have automatic requests. */
  lemma ProgressionIff(o: Outcome, r: Rubric, c: Change, p: Policy, v: View, prior: int, execution: Option<Value>, glob: Glob)
    requires Judges(o, r, c, p, v, prior, execution, glob)
    ensures o.decision.progression == ManualOnly <==> o.reasons != []
    ensures o.decision.progression == AutoPrCandidate <==> o.reasons == [] && Strip(r.observed) in p.auto.autoPr
    ensures o.decision.lifecycle == LifecycleOf(o.reasons == [], o.decision.progression == AutoPrCandidate, v)
  {
    ListsMeans(o.reasons, r, c, p.auto, glob);
    if o.reasons != [] { assert Objection(o.reasons[0], r, c, p.auto, glob); }
  }

  /** The order reasons are given in; a forbidden path that the rubric reported comes before the size of the diff, one found
      only now after the counts. */
  function ReasonOrder(untouched: bool): (order: seq<Reason>)
    ensures |order| == 17
  {
    [DeclaredObservedMismatch, CategoryNotEligible, CategoryConstraintsMissing] + (if untouched then [] else [ForbiddenPathTouched])
    + [DiffSizeLimitExceeded, TestsNotDeclared, TestsNotExecuted, TestsNotPassed, CiNotGreen,
       ChangedFilesMissing, DiffStatsMissing, FilesCountExceeded, DiffLinesExceeded]
    + (if untouched then [ForbiddenPathTouched] else [])
    + [GeneratedPathTouched, BinaryFileTouched, RuntimePathTouched, ContractPathTouched]
  }

  lemma RankAt(untouched: bool, m: nat)
    requires m < 17
    ensures Rank(ReasonOrder(untouched)[m], untouched) == if m < (if untouched then 3 else 13) then m else m + 1
  {
  }

  /** Reasons are listed in that order, each once. */
  lemma ReasonsInOrder(o: Outcome, r: Rubric, c: Change, p: Policy, v: View, prior: int, execution: Option<Value>, glob: Glob,
                       i: nat, j: nat, m: nat, n: nat)
    requires Judges(o, r, c, p, v, prior, execution, glob)
    requires i < |o.reasons| && j < |o.reasons| && m < 17 && n < 17
    requires o.reasons[i] == ReasonOrder(r.forbiddenUntouched)[m] && o.reasons[j] == ReasonOrder(r.forbiddenUntouched)[n]
    ensures i < j <==> m < n
  {
    assert InPlaces(o.reasons, Facts(r, c, p.auto, glob));
    PlacedInOrder(o.reasons, Facts(r, c, p.auto, glob), i, j, m, n);
  }

  lemma PlacedInOrder(reasons: seq<Reason>, f: Facts, i: nat, j: nat, m: nat, n: nat)
    requires InPlaces(reasons, f) && i < |reasons| && j < |reasons| && m < 17 && n < 17
    requires reasons[i] == ReasonOrder(f.r.forbiddenUntouched)[m] && reasons[j] == ReasonOrder(f.r.forbiddenUntouched)[n]
    ensures i < j <==> m < n
  {
    RankAt(f.r.forbiddenUntouched, m);
    RankAt(f.r.forbiddenUntouched, n);
    assert Place(reasons[i], f) < Place(reasons[j], f) <==> m < n;
    assert j < i ==> Place(reasons[j], f) < Place(reasons[i], f);
  }

  // ---- write authority ----

  /** What stands against writing once authority is on, the kill switch off and the category allowed. */
  predicate AgainstWriting(x: WriteReason, states: seq<string>, d: Decision, v: View) {
    match x
    case PolicyNotEligible => d.progression == ManualOnly
    case NotAutoPrCandidate => d.progression != AutoPrCandidate
    case LifecycleNotReady => d.lifecycle !in states
    case GithubUnavailable => !v.available
    case TargetIdentityMissing => v.repository == "" || v.targetRef == ""
    case WriteChecksNotPassing => v.checks != "passing"
    case WriteReviewNotApproved => v.review != "approved"
    case WriteNotClean => v.mergeability != "clean"
    case _ => false
  }

  const WRITE_ORDER := [PolicyNotEligible, NotAutoPrCandidate, LifecycleNotReady, GithubUnavailable, TargetIdentityMissing,
                        WriteChecksNotPassing, WriteReviewNotApproved, WriteNotClean]

  lemma ListedIff(reasons: seq<WriteReason>, w: WriteAuthority, d: Decision, v: View, x: WriteReason)
    requires ListsWrite(reasons, FactsOf(w, d, v))
    ensures x in reasons <==> AgainstWriting(x, w.states, d, v)
  {
    assert WritePlace(x) <= 8 && (ObjectsToWrite(x, FactsOf(w, d, v)) <==> AgainstWriting(x, w.states, d, v));
  }

  /** The write reasons and the write state: one reason alone when authority is off, the kill switch on or the category not
      allowed, else exactly those that hold; and without any, a dry run or the real thing. */
  lemma WriteIff(o: Outcome, r: Rubric, c: Change, p: Policy, v: View, prior: int, execution: Option<Value>, glob: Glob)
    requires Judges(o, r, c, p, v, prior, execution, glob)
    ensures var w := p.write;
      if !w.enabled then o.writeReasons == [AuthorityDisabled] && o.decision.write == Disabled
      else if w.killSwitch then o.writeReasons == [KillSwitchOn] && o.decision.write == WriteBlocked
      else if Strip(r.observed) !in w.categories then o.writeReasons == [CategoryNotAllowed] && o.decision.write == WriteBlocked
      else
        && (forall x :: x in o.writeReasons <==> AgainstWriting(x, w.states, o.decision, v))
        && o.decision.write == if o.writeReasons != [] then WritePreparable else if w.dryRun then DryRunOnly else WriteAllowed
  {
    var w := p.write;
    if w.enabled && !w.killSwitch && Strip(r.observed) in w.categories {
      var g := FactsOf(w, o.decision, v);
      assert ListsWrite(o.writeReasons, g);
      forall x ensures x in o.writeReasons <==> AgainstWriting(x, w.states, o.decision, v) {
        ListedIff(o.writeReasons, w, o.decision, v, x);
      }
    }
  }

  /** Write reasons are listed in that order, each once. */
  lemma WriteReasonsInOrder(o: Outcome, r: Rubric, c: Change, p: Policy, v: View, prior: int, execution: Option<Value>, glob: Glob,
                       i: nat, j: nat, m: nat, n: nat)
    requires Judges(o, r, c, p, v, prior, execution, glob)
    requires i < |o.writeReasons| && j < |o.writeReasons| && m < 8 && n < 8
    requires o.writeReasons[i] == WRITE_ORDER[m] && o.writeReasons[j] == WRITE_ORDER[n]
    ensures i < j <==> m < n
  {
    ExplainedInOrder(o.writeReasons, p.write, r.observed, FactsOf(p.write, o.decision, v), i, j, m, n);
  }

  lemma ExplainedInOrder(reasons: seq<WriteReason>, w: WriteAuthority, category: string, g: WriteFacts, i: nat, j: nat, m: nat, n: nat)
    requires ExplainsWrite(reasons, w, category, g) && i < |reasons| && j < |reasons| && m < 8 && n < 8
    requires reasons[i] == WRITE_ORDER[m] && reasons[j] == WRITE_ORDER[n]
    ensures i < j <==> m < n
  {
    WritePlaceAt(m);
    WritePlaceAt(n);
    if |reasons| > 1 {
      RisingPlaces(reasons, g, i, j);
      RisingPlaces(reasons, g, j, i);
    }
  }

  lemma WritePlaceAt(m: nat)
    requires m < 8
    ensures WritePlace(WRITE_ORDER[m]) == m + 1
  {
  }

  lemma RisingPlaces(reasons: seq<WriteReason>, g: WriteFacts, i: nat, j: nat)
    requires ListsWrite(reasons, g) && i < |reasons| && j < |reasons|
    ensures i < j ==> WritePlace(reasons[i]) < WritePlace(reasons[j])
  {
  }

  // ---- pass or fail ----

  /** The checks that are switched on and fail, each with its reason. */
  predicate FailsWith(r: Rubric, p: Policy, x: string) {
    || (p.switches.rubricAllPass && !r.mergeEligible && (if r.failReasons == [] then x == "rubric_not_all_pass" else x in r.failReasons))
    || (p.switches.ciGreen && !r.ciGreen && x == "required_ci_checks_not_green")
    || (p.switches.declaredEqualsObserved && r.declared != r.observed && x == "declared_category_does_not_match_observed_category")
    || (p.switches.noForbiddenPaths && !r.forbiddenUntouched && x == "observed_category_forbidden_paths_touched")
    || (p.switches.sizeWithinLimit && !r.sizeWithinLimit && x == "diff_size_limit_exceeded")
    || (r.observed !in p.autoMerge && x == "category_not_auto_merge_allowed")
  }

  /** A reason against passing is given exactly when some check fails with it. */
  lemma FailIff(r: Rubric, p: Policy, x: string)
    ensures x in FailReasons(r, p) <==> FailsWith(r, p, x)
  {
    FirstOfEachMeaning(RawFailReasons(r, p));
    RawFailIff(r, p, x);
  }

  lemma RawFailIff(r: Rubric, p: Policy, x: string)
    ensures x in RawFailReasons(r, p) <==> FailsWith(r, p, x)
  {
    var s := p.switches;
    var a := Then(RubricFails(r, p), s.ciGreen && !r.ciGreen, CI_NOT_GREEN);
    var b := Then(a, s.declaredEqualsObserved && r.declared != r.observed, DECLARED_MISMATCH);
    var c := Then(b, s.noForbiddenPaths && !r.forbiddenUntouched, FORBIDDEN_TOUCHED);
    var d := Then(c, s.sizeWithinLimit && !r.sizeWithinLimit, DIFF_TOO_LARGE);
    ThenAdds(RubricFails(r, p), s.ciGreen && !r.ciGreen, CI_NOT_GREEN, x);
    ThenAdds(a, s.declaredEqualsObserved && r.declared != r.observed, DECLARED_MISMATCH, x);
    ThenAdds(b, s.noForbiddenPaths && !r.forbiddenUntouched, FORBIDDEN_TOUCHED, x);
    ThenAdds(c, s.sizeWithinLimit && !r.sizeWithinLimit, DIFF_TOO_LARGE, x);
    ThenAdds(d, r.observed !in p.autoMerge, NOT_AUTO_MERGE, x);
  }

  lemma ThenAdds(found: seq<string>, c: bool, reason: string, x: string)
    ensures x in Then(found, c, reason) <==> x in found || (c && x == reason)
  {
  }

  function OneIf(c: bool, reason: string): seq<string> { if c then [reason] else [] }

  /** The checks are made in this order; the rubric's own reasons come first, as they stand. */
  lemma FailsInOrder(r: Rubric, p: Policy)
    ensures var s := p.switches;
      RawFailReasons(r, p) ==
        (if !s.rubricAllPass || r.mergeEligible then [] else if r.failReasons == [] then ["rubric_not_all_pass"] else r.failReasons)
        + OneIf(s.ciGreen && !r.ciGreen, "required_ci_checks_not_green")
        + OneIf(s.declaredEqualsObserved && r.declared != r.observed, "declared_category_does_not_match_observed_category")
        + OneIf(s.noForbiddenPaths && !r.forbiddenUntouched, "observed_category_forbidden_paths_touched")
        + OneIf(s.sizeWithinLimit && !r.sizeWithinLimit, "diff_size_limit_exceeded")
        + OneIf(r.observed !in p.autoMerge, "category_not_auto_merge_allowed")
  {
    ThenIs();
  }

  lemma ThenIs()
    ensures forall found, c, reason :: Then(found, c, reason) == found + OneIf(c, reason)
  {
  }

  /** Repeats are dropped from the back: a further reason is added exactly when it is new. */
  lemma FirstOfEachGrows(reasons: seq<string>, x: string)
    ensures FirstOfEach([]) == []
    ensures FirstOfEach(reasons + [x]) == FirstOfEach(reasons) + if x in reasons then [] else [x]
  {
    assert (reasons + [x])[..|reasons|] == reasons;
    FirstOfEachMeaning(reasons);
  }

  // ---- failure and advice ----

  predicate DidNotRun(execution: Option<Value>) {
    execution.Some? && execution.value != Null && Lower(Strip(Str(execution.value))) in {"failed", "timed_out", "not_started", "not_implemented"}
  }

  /** A fail reason, as the rubric may have given it, names one of the signals. */
  predicate NamesSignal(fails: seq<string>) {
    exists i :: 0 <= i < |fails| && Strip(fails[i]) in
      {"changed_files_missing", "diff_line_stats_missing", "write_github_state_unavailable", "write_target_identity_missing"}
  }

  predicate SignalMissing(o: Outcome) {
    || ChangedFilesMissing in o.reasons || DiffStatsMissing in o.reasons
    || GithubUnavailable in o.writeReasons || TargetIdentityMissing in o.writeReasons
    || NamesSignal(o.fails)
  }

  predicate Objected(o: Outcome) { o.reasons != [] || exists i :: 0 <= i < |o.fails| && Strip(o.fails[i]) != "" }

  /** The kinds of failure, in the order they are looked for. */
  function KindsOf(o: Outcome, v: View, execution: Option<Value>): seq<(bool, Failure)> {
    [(DidNotRun(execution), ExecutionFailure), (SignalMissing(o), MissingSignal),
     (v.mergeability in {"blocked", "behind", "dirty", "draft"}, MergeabilityFailure), (v.review == "changes_requested", ReviewBlocked),
     (Objected(o), PolicyFailure),
     (o.decision.lifecycle in {"pr_preparable", "checks_pending", "checks_green", "review_pending", "merge_blocked"}, LifecycleBlocked),
     (o.decision.write in {Disabled, WriteBlocked, WritePreparable}, WriteAuthorityBlocked)]
  }

  function FirstKind(kinds: seq<(bool, Failure)>): Failure {
    if kinds == [] then NoFailure else if kinds[0].0 then kinds[0].1 else FirstKind(kinds[1..])
  }

  lemma FirstOrRest(k: seq<(bool, Failure)>)
    requires k != []
    ensures FirstKind(k) == if k[0].0 then k[0].1 else FirstKind(k[1..])
  {
  }

  lemma FirstOfSeven(k: seq<(bool, Failure)>)
    requires |k| == 7
    ensures FirstKind(k) == if k[0].0 then k[0].1 else if k[1].0 then k[1].1 else if k[2].0 then k[2].1 else if k[3].0 then k[3].1
                            else if k[4].0 then k[4].1 else if k[5].0 then k[5].1 else if k[6].0 then k[6].1 else NoFailure
  {
    FirstOrRest(k);
    FirstOrRest(k[1..]);
    assert k[1..][1..] == k[2..];
    FirstOrRest(k[2..]);
    assert k[2..][1..] == k[3..];
    FirstOfFour(k[3..]);
  }

  lemma FirstOfFour(k: seq<(bool, Failure)>)
    requires |k| == 4
    ensures FirstKind(k) == if k[0].0 then k[0].1 else if k[1].0 then k[1].1 else if k[2].0 then k[2].1 else if k[3].0 then k[3].1 else NoFailure
  {
    FirstOrRest(k);
    FirstOrRest(k[1..]);
    assert k[1..][1..] == k[2..];
    FirstOrRest(k[2..]);
    assert k[2..][1..] == k[3..];
    FirstOrRest(k[3..]);
    assert k[3..][1..] == [];
  }

  /** The failure of a change is the first kind that applies. */
  lemma FailureIs(o: Outcome, r: Rubric, c: Change, p: Policy, v: View, prior: int, execution: Option<Value>, glob: Glob)
    requires Judges(o, r, c, p, v, prior, execution, glob)
    ensures o.replan.failure == FirstKind(KindsOf(o, v, execution))
  {
    FailureIsFirst(o, v, execution);
    assert o.replan.failure == FailureOf(o.fails, o.reasons, o.writeReasons, o.decision, v, execution);
  }

  lemma FailureIsFirst(o: Outcome, v: View, execution: Option<Value>)
    requires o.writeReasons == [] <==> Cleared(o.decision.write)
    ensures FailureOf(o.fails, o.reasons, o.writeReasons, o.decision, v, execution) == FirstKind(KindsOf(o, v, execution))
  {
    BrokenIff(execution);
    MissingIff(o.fails);
    FirstOfSeven(KindsOf(o, v, execution));
  }

  lemma BrokenIff(execution: Option<Value>)
    ensures Broken(execution) <==> DidNotRun(execution)
  {
    var word := Lower(PlainText(execution));
    SameWords(word);
    BlankIsNoWord();
    if execution.None? || execution.value == Null {
      assert word == Lower("");
    } else {
      assert word == Lower(Strip(Str(execution.value)));
    }
  }

  lemma SameWords(word: string)
    ensures word in BROKEN <==> word in {"failed", "timed_out", "not_started", "not_implemented"}
  {
  }

  lemma BlankIsNoWord()
    ensures Lower("") !in {"failed", "timed_out", "not_started", "not_implemented"}
  {
    assert |Lower("")| == 0 && |"failed"| == 6 && |"timed_out"| == 9 && |"not_started"| == 11 && |"not_implemented"| == 15;
  }

  lemma MissingIff(fails: seq<string>)
    ensures NamesMissing(fails) <==> NamesSignal(fails)
  {
  }

  /** The advice in numbers: what is left of the budget, and whether that is why no retry is advised. */
  lemma BudgetIs(o: Outcome, r: Rubric, c: Change, p: Policy, v: View, prior: int, execution: Option<Value>, glob: Glob)
    requires Judges(o, r, c, p, v, prior, execution, glob)
    ensures var a := o.replan;
      && a.remaining == (if prior <= 0 then p.retry.maxAttempts else if prior <= p.retry.maxAttempts then p.retry.maxAttempts - prior else 0)
      && (a.exhausted <==> a.failure != NoFailure && Name(a.failure) in p.retry.retriable && a.remaining == 0)
      && (a.advice == Retry <==> a.failure != NoFailure && Name(a.failure) in p.retry.retriable && a.remaining > 0)
      && (a.advice == NotRequired <==> a.failure == NoFailure)
  {
  }

  /** The names failures are known by in the policy. */
  lemma NamesAre(f: Failure)
    ensures Name(f) == "execution_failure" <==> f == ExecutionFailure
    ensures Name(f) == "missing_signal" <==> f == MissingSignal
    ensures Name(f) == "mergeability_failure" <==> f == MergeabilityFailure
    ensures Name(f) == "review_blocked" <==> f == ReviewBlocked
    ensures Name(f) == "policy_failure" <==> f == PolicyFailure
    ensures Name(f) == "lifecycle_blocked" <==> f == LifecycleBlocked
    ensures Name(f) == "write_authority_blocked" <==> f == WriteAuthorityBlocked
    ensures Name(f) == "none" <==> f == NoFailure
  {
    assert |"execution_failure"| == 17 && |"missing_signal"| == 14 && |"mergeability_failure"| == 20 && |"review_blocked"| == 14;
    assert |"policy_failure"| == 14 && |"lifecycle_blocked"| == 17 && |"write_authority_blocked"| == 23 && |"none"| == 4;
    assert "execution_failure"[0] == 'e' && "lifecycle_blocked"[0] == 'l';
    assert "missing_signal"[0] == 'm' && "review_blocked"[0] == 'r' && "policy_failure"[0] == 'p';
  }
}
