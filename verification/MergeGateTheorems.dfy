/** What the policy gate guarantees. */
module MergeGateTheorems {
  import opened Options
  import opened Text
  import opened Values
  import opened Policies
  import opened GatePolicy
  import opened GithubSnapshot
  import opened ChangedPaths
  import opened SortedTexts
  import opened MergeGate

  lemma NoWriteObjectionIff(states: seq<string>, lifecycle: string, eligible: bool, autoPr: bool, v: View)
    ensures (forall x :: !WriteObjection(x, states, lifecycle, eligible, autoPr, v)) <==>
            eligible && autoPr && lifecycle in states && GithubAgrees(v)
  {
    if forall x :: !WriteObjection(x, states, lifecycle, eligible, autoPr, v) {
      assert !WriteObjection(PolicyNotEligible, states, lifecycle, eligible, autoPr, v);
      assert !WriteObjection(NotAutoPrCandidate, states, lifecycle, eligible, autoPr, v);
      assert !WriteObjection(LifecycleNotReady, states, lifecycle, eligible, autoPr, v);
      assert !WriteObjection(GithubUnavailable, states, lifecycle, eligible, autoPr, v);
      assert !WriteObjection(TargetIdentityMissing, states, lifecycle, eligible, autoPr, v);
      assert !WriteObjection(WriteChecksNotPassing, states, lifecycle, eligible, autoPr, v);
      assert !WriteObjection(WriteReviewNotApproved, states, lifecycle, eligible, autoPr, v);
      assert !WriteObjection(WriteNotClean, states, lifecycle, eligible, autoPr, v);
    }
  }

  predicate Cleared(state: WriteState) { state == DryRunOnly || state == WriteAllowed }

  /** The two derivations coincide: writing is cleared (for real or as a dry run) exactly when authority is on, the
      kill switch off, the category allowed, and the lifecycle is approved and listed as sufficient. */
  lemma WriteFollowsLifecycle(w: WriteAuthority, category: string, eligible: bool, autoPr: bool, v: View)
    ensures var lifecycle := LifecycleOf(eligible, autoPr, v);
            Cleared(WriteStateOf(w, category, lifecycle, eligible, autoPr, v)) <==>
            && w.enabled && !w.killSwitch && Strip(category) in w.categories
            && lifecycle == APPROVED && APPROVED in w.states
  {
    NoWriteObjectionIff(w.states, LifecycleOf(eligible, autoPr, v), eligible, autoPr, v);
    ApprovedIff(eligible, autoPr, v);
  }

  /** Every condition the policy knows, on the change and the tests. */
  predicate PolicyAgrees(r: Rubric, c: Change, p: AutoProgression, glob: Glob) {
    var category := Strip(r.observed);
    && Strip(r.declared) == category && category in p.eligible && category in p.autoPr
    && r.testsDeclared && r.testsExecuted && r.testsPassed && r.ciGreen
    && r.forbiddenUntouched && r.sizeWithinLimit && c.statsPresent && c.files != []
    && Find(p.thresholds, category).Some?
    && var t := Find(p.thresholds, category).value;
    && (p.changedFiles > 0 ==> |c.files| <= p.changedFiles) && (t.changedFiles > 0 ==> |c.files| <= t.changedFiles)
    && (p.diffLines > 0 ==> c.lines <= p.diffLines) && (t.diffLines > 0 ==> c.lines <= t.diffLines)
    && !Touches(glob, c.files, t.forbidden) && !Touches(glob, c.files, p.generated) && !HasExtension(c.files, p.binary)
    && !Touches(glob, c.files, p.runtime) && !Touches(glob, c.files, p.contract)
  }

  lemma NoObjections(r: Rubric, c: Change, p: AutoProgression, glob: Glob)
    requires Unobjectionable(r, c, p, glob)
    ensures Strip(r.declared) == Strip(r.observed) && Strip(r.observed) in p.eligible && Find(p.thresholds, Strip(r.observed)).Some?
    ensures r.testsDeclared && r.testsExecuted && r.testsPassed && r.ciGreen && r.forbiddenUntouched && r.sizeWithinLimit
    ensures c.statsPresent && c.files != []
  {
    assert !Objection(DeclaredObservedMismatch, r, c, p, glob);
    assert !Objection(CategoryNotEligible, r, c, p, glob);
    assert !Objection(CategoryConstraintsMissing, r, c, p, glob);
    assert !Objection(TestsNotDeclared, r, c, p, glob);
    assert !Objection(TestsNotExecuted, r, c, p, glob);
    assert !Objection(TestsNotPassed, r, c, p, glob);
    assert !Objection(CiNotGreen, r, c, p, glob);
    assert !Objection(ForbiddenPathTouched, r, c, p, glob);
    assert !Objection(DiffSizeLimitExceeded, r, c, p, glob);
    assert !Objection(DiffStatsMissing, r, c, p, glob);
    assert !Objection(ChangedFilesMissing, r, c, p, glob);
  }

  lemma NoPathObjections(r: Rubric, c: Change, p: AutoProgression, glob: Glob)
    requires Unobjectionable(r, c, p, glob)
    ensures var t := ThresholdFor(p, Strip(r.observed));
            && !Over(p.changedFiles, |c.files|) && !Over(t.changedFiles, |c.files|)
            && !Over(p.diffLines, c.lines) && !Over(t.diffLines, c.lines)
            && !Touches(glob, c.files, t.forbidden) && !Touches(glob, c.files, p.generated) && !HasExtension(c.files, p.binary)
            && !Touches(glob, c.files, p.runtime) && !Touches(glob, c.files, p.contract)
  {
    assert !Objection(FilesCountExceeded, r, c, p, glob);
    assert !Objection(DiffLinesExceeded, r, c, p, glob);
    assert !Objection(ForbiddenPathTouched, r, c, p, glob);
    assert !Objection(GeneratedPathTouched, r, c, p, glob);
    assert !Objection(BinaryFileTouched, r, c, p, glob);
    assert !Objection(RuntimePathTouched, r, c, p, glob);
    assert !Objection(ContractPathTouched, r, c, p, glob);
  }

  lemma CandidateIff(r: Rubric, c: Change, p: AutoProgression, glob: Glob)
    ensures ProgressionOf(r, c, p, glob) == AutoPrCandidate <==> PolicyAgrees(r, c, p, glob)
  {
    if Unobjectionable(r, c, p, glob) {
      NoObjections(r, c, p, glob);
      NoPathObjections(r, c, p, glob);
    }
    if PolicyAgrees(r, c, p, glob) {
      forall x ensures !Objection(x, r, c, p, glob) {}
    }
  }

  /** Write permission, from the documents: exactly when every authority switch, every policy condition and every
      GitHub condition holds. */
  lemma WriteAllowedIff(q: Request, glob: Glob)
    ensures var p := GateReading(q.policy);
            Gate(q, glob).write == WriteAllowed <==>
            && p.write.enabled && !p.write.killSwitch && !p.write.dryRun
            && Strip(q.rubric.observed) in p.write.categories && APPROVED in p.write.states
            && PolicyAgrees(q.rubric, ChangeOf(q), p.auto, glob) && GithubAgrees(ViewOf(q.signals))
  {
    var p := GateReading(q.policy);
    var d := Gate(q, glob);
    WriteFollowsLifecycle(p.write, q.rubric.observed, d.progression != ManualOnly, d.progression == AutoPrCandidate, ViewOf(q.signals));
    CandidateIff(q.rubric, ChangeOf(q), p.auto, glob);
    ApprovedIff(d.progression != ManualOnly, d.progression == AutoPrCandidate, ViewOf(q.signals));
  }

  /** A collected snapshot approves an auto-PR candidate exactly when it is ready, or would be but for the draft
      mark or for reasons the backend added. */
  lemma ReadyAgainstApproved(t: Target, s: State, extra: seq<Obstacle>)
    requires Collected(t, s, extra).Some?
    ensures var p := Collected(t, s, extra).value;
            p.progress.Ready? <==>
            && LifecycleOf(true, true, ViewOf(Some(SignalsOf(p)))) == APPROVED
            && p.draft != Some(true) && extra == []
  {
    var p := SnapshotOf(t, s, extra);
    CollectedViewReadsBack(t, s, extra);
    SnapshotReadyIff(t, s, extra);
    ApprovedIff(true, true, ViewOf(Some(SignalsOf(p))));
  }

  /** An artifact state, all of it fine; `draft` is its draft mark. */
  function CleanState(draft: bool): State {
    EMPTY_STATE.(repository := Some(Words("r")), targetRef := Some(Words("main")), checksState := Some(Words("passing")),
                 reviewState := Some(Words("approved")), mergeabilityState := Some(Words("clean")), isDraft := Some(Flag(draft)))
  }

  lemma ChoiceReads(word: string, allowed: set<string>)
    requires Settled(word) && word in allowed
    ensures Choice(Some(Words(word)), allowed) == Some(word)
  {
  }

  lemma ChecksRead(draft: bool)
    ensures Checks(CleanState(draft)) == "passing"
  {
    SmallWordIsSettled("passing");
    ChoiceReads("passing", CHECK_STATES);
  }

  lemma ReviewReads(draft: bool)
    ensures Review(CleanState(draft)) == "approved"
  {
    SmallWordIsSettled("approved");
    ChoiceReads("approved", REVIEW_STATES);
  }

  lemma MergeabilityReads(draft: bool)
    ensures Mergeability(CleanState(draft)) == "clean"
  {
    SmallWordIsSettled("clean");
    ChoiceReads("clean", MERGEABILITY_STATES);
  }

  lemma CleanStateReads(t: Target, draft: bool)
    ensures var s := CleanState(draft);
            Repository(t, s).Some? && TargetRef(t, s).Some? && Checks(s) == "passing" && Review(s) == "approved"
            && Mergeability(s) == "clean" && Draft(s) == Some(draft)
  {
    StripIdempotent("r");
    StripIdempotent("main");
    ChecksRead(draft);
    ReviewReads(draft);
    MergeabilityReads(draft);
  }

  predicate Blocked(p: Option<Snapshot>) { p.Some? && p.value.progress.Blocked? }

  predicate Approved(p: Option<Snapshot>) { p.Some? && LifecycleOf(true, true, ViewOf(Some(SignalsOf(p.value)))) == APPROVED }

  lemma CleanIsApproved(t: Target, draft: bool, extra: seq<Obstacle>)
    requires draft || extra != []
    ensures Approved(Collected(t, CleanState(draft), extra)) && Blocked(Collected(t, CleanState(draft), extra))
  {
    CleanStateReads(t, draft);
    CollectedViewReadsBack(t, CleanState(draft), extra);
    SnapshotReadyIff(t, CleanState(draft), extra);
    ApprovedIff(true, true, ViewOf(Some(SignalsOf(SnapshotOf(t, CleanState(draft), extra)))));
  }

  /** A draft whose state says "clean" is approved although the snapshot is blocked, and so is a stale artifact that
      replaces a failed live fetch. */
  lemma ApprovedThoughBlocked(t: Target)
    ensures Blocked(Collected(t, CleanState(true), [])) && Approved(Collected(t, CleanState(true), []))
    ensures Blocked(LiveSnapshot(t, FetchFailed, CleanState(false))) && Approved(LiveSnapshot(t, FetchFailed, CleanState(false)))
  {
    CleanIsApproved(t, true, []);
    CleanIsApproved(t, false, LiveObstacles(FetchFailed));
  }

  // ---- smaller changes ----

  lemma FewerTouch(glob: Glob, small: seq<string>, large: seq<string>, patterns: seq<string>)
    requires forall f :: f in small ==> f in large
    ensures Touches(glob, small, patterns) ==> Touches(glob, large, patterns)
    ensures HasExtension(small, patterns) ==> HasExtension(large, patterns)
  {
    if Touches(glob, small, patterns) {
      var i, j :| 0 <= i < |small| && 0 <= j < |patterns| && glob(small[i], patterns[j]);
      assert small[i] in large;
      var k :| 0 <= k < |large| && large[k] == small[i];
      assert glob(large[k], patterns[j]);
    }
    if HasExtension(small, patterns) {
      var i, j :| 0 <= i < |small| && 0 <= j < |patterns| && EndsWith(Lower(small[i]), patterns[j]);
      assert small[i] in large;
      var k :| 0 <= k < |large| && large[k] == small[i];
      assert EndsWith(Lower(large[k]), patterns[j]);
    }
  }

  lemma SmallerChangeNoNewObjection(x: Reason, r: Rubric, small: Change, large: Change, p: AutoProgression, glob: Glob)
    requires forall f :: f in small.files ==> f in large.files
    requires small.files != [] && |small.files| <= |large.files|
    requires small.lines <= large.lines && (large.statsPresent ==> small.statsPresent)
    requires Objection(x, r, small, p, glob)
    ensures Objection(x, r, large, p, glob)
  {
    var t := ThresholdFor(p, Strip(r.observed));
    FewerTouch(glob, small.files, large.files, t.forbidden);
    FewerTouch(glob, small.files, large.files, p.generated);
    FewerTouch(glob, small.files, large.files, p.binary);
    FewerTouch(glob, small.files, large.files, p.runtime);
    FewerTouch(glob, small.files, large.files, p.contract);
  }

  /** Dropping files and lines from a change that is not left to a human keeps the whole decision, whatever the
      glob matcher does. */
  lemma SmallerChangeSameDecision(q: Request, small: Request, glob: Glob)
    requires Gate(q, glob).progression != ManualOnly
    requires small.rubric == q.rubric && small.policy == q.policy && small.signals == q.signals
    requires q.statsPresent ==> small.statsPresent
    requires small.additions + small.deletions <= q.additions + q.deletions
    requires exists path :: Spelled(path, small.changedFiles)
    requires forall path :: Spelled(path, small.changedFiles) ==> Spelled(path, q.changedFiles)
    ensures Gate(small, glob) == Gate(q, glob)
  {
    PathsMeaning(small.changedFiles);
    PathsMeaning(q.changedFiles);
    var c, d := ChangeOf(small), ChangeOf(q);
    FewerElements(c.files, d.files);
    var path :| Spelled(path, small.changedFiles);
    assert path in c.files;
    var p := GateReading(q.policy).auto;
    forall x ensures !Objection(x, q.rubric, c, p, glob) {
      if Objection(x, q.rubric, c, p, glob) { SmallerChangeNoNewObjection(x, q.rubric, c, d, p, glob); }
    }
  }

  /** The decision depends on the changed files only through the set of normalised paths. */
  lemma SpellingDoesNotMatter(q: Request, files: seq<string>, glob: Glob)
    requires forall path :: Spelled(path, files) <==> Spelled(path, q.changedFiles)
    ensures Gate(q.(changedFiles := files), glob) == Gate(q, glob)
  {
    SamePathsSameList(files, q.changedFiles);
    assert ChangeOf(q.(changedFiles := files)) == ChangeOf(q);
  }

  // ---- thresholds without effect ----

  predicate SameButTests(a: Thresholds, b: Thresholds) {
    |a| == |b| && forall i :: 0 <= i < |a| ==>
      a[i].0 == b[i].0 && a[i].1.(tests := b[i].1.tests, ciGreen := b[i].1.ciGreen) == b[i].1
  }

  lemma {:induction false} SameButTestsFinds(a: Thresholds, b: Thresholds, category: string)
    requires SameButTests(a, b)
    ensures Find(a, category).Some? <==> Find(b, category).Some?
    ensures var t, u := Find(a, category), Find(b, category);
            t.Some? ==> t.value.(tests := u.value.tests, ciGreen := u.value.ciGreen) == u.value
  {
    if a != [] { SameButTestsFinds(a[1..], b[1..], category); }
  }

  lemma SameThreshold(a: AutoProgression, b: AutoProgression, category: string)
    requires SameButTests(a.thresholds, b.thresholds)
    ensures Find(a.thresholds, category).None? <==> Find(b.thresholds, category).None?
    ensures var t, u := ThresholdFor(a, category), ThresholdFor(b, category);
            t.forbidden == u.forbidden && t.changedFiles == u.changedFiles && t.diffLines == u.diffLines
  {
    SameButTestsFinds(a.thresholds, b.thresholds, category);
  }

  lemma SameObjections(x: Reason, r: Rubric, c: Change, p: AutoProgression, q: AutoProgression, glob: Glob)
    requires SameButTests(p.thresholds, q.thresholds) && q == p.(thresholds := q.thresholds)
    ensures Objection(x, r, c, q, glob) <==> Objection(x, r, c, p, glob)
  {
    var category := Strip(r.observed);
    SameThreshold(p, q, category);
    match x {
      case ForbiddenPathTouched =>
        assert Touches(glob, c.files, ThresholdFor(p, category).forbidden) == Touches(glob, c.files, ThresholdFor(q, category).forbidden);
      case _ =>
    }
  }

  /** A category's `required_tests` and `requires_ci_green` cannot change the progression: all tests and a green CI
      are demanded of every category, whatever these entries say. */
  lemma CategoryTestsHaveNoEffect(r: Rubric, c: Change, p: AutoProgression, other: Thresholds, glob: Glob)
    requires SameButTests(p.thresholds, other)
    ensures ProgressionOf(r, c, p.(thresholds := other), glob) == ProgressionOf(r, c, p, glob)
  {
    forall x ensures Objection(x, r, c, p.(thresholds := other), glob) <==> Objection(x, r, c, p, glob) {
      SameObjections(x, r, c, p, p.(thresholds := other), glob);
    }
  }
}
