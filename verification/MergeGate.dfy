/** The policy gate (orchestrator/merge_gate.py): progression, lifecycle and write authority. */
module MergeGate {
  import opened Options
  import opened Text
  import opened Values
  import opened Policies
  import opened GatePolicy
  import opened GithubSnapshot
  import opened ChangedPaths

  // ---- progression ----

  datatype Rubric = Rubric(declared: string, observed: string, forbiddenUntouched: bool, sizeWithinLimit: bool,
                           testsDeclared: bool, testsExecuted: bool, testsPassed: bool, ciGreen: bool,
                           mergeEligible: bool, failReasons: seq<string>)

  /** A change as the progression sees it: normalised paths, and lines added plus deleted. */
  datatype Change = Change(files: seq<string>, lines: int, statsPresent: bool)

  datatype Reason =
    | DeclaredObservedMismatch | CategoryNotEligible | CategoryConstraintsMissing
    | ForbiddenPathTouched | DiffSizeLimitExceeded
    | TestsNotDeclared | TestsNotExecuted | TestsNotPassed | CiNotGreen
    | ChangedFilesMissing | DiffStatsMissing | FilesCountExceeded | DiffLinesExceeded
    | GeneratedPathTouched | BinaryFileTouched | RuntimePathTouched | ContractPathTouched

  /** `fnmatch(path, pattern)` */
  type Glob = (string, string) -> bool

  predicate Touches(glob: Glob, files: seq<string>, patterns: seq<string>) {
    exists i, j :: 0 <= i < |files| && 0 <= j < |patterns| && glob(files[i], patterns[j])
  }

  predicate EndsWith(s: string, end: string) { |end| <= |s| && s[|s| - |end|..] == end }

  predicate HasExtension(files: seq<string>, extensions: seq<string>) {
    exists i, j :: 0 <= i < |files| && 0 <= j < |extensions| && EndsWith(Lower(files[i]), extensions[j])
  }

  /** Zero is no limit; of two limits the lower one. */
  function Limit(overall: nat, category: nat): nat {
    if overall == 0 then category else if category == 0 || overall < category then overall else category
  }

  predicate Over(limit: nat, n: int) { limit > 0 && n > limit }

  /** The combined limit is exceeded exactly when one of the two is. */
  lemma LimitCombines(overall: nat, category: nat, n: int)
    ensures Over(Limit(overall, category), n) <==> Over(overall, n) || Over(category, n)
  {
  }

  const NO_THRESHOLD := Threshold(0, 0, [], [], None)

  function ThresholdFor(p: AutoProgression, category: string): Threshold {
    var t := Find(p.thresholds, category);
    if t.Some? then t.value else NO_THRESHOLD
  }

  /** What each reason against automatic progression means. */
  predicate Objection(x: Reason, r: Rubric, c: Change, p: AutoProgression, glob: Glob) {
    var category := Strip(r.observed);
    var t := ThresholdFor(p, category);
    match x
    case DeclaredObservedMismatch => Strip(r.declared) != category
    case CategoryNotEligible => category !in p.eligible
    case CategoryConstraintsMissing => category in p.eligible && Find(p.thresholds, category).None?
    case ForbiddenPathTouched => !r.forbiddenUntouched || Touches(glob, c.files, t.forbidden)
    case DiffSizeLimitExceeded => !r.sizeWithinLimit
    case TestsNotDeclared => !r.testsDeclared
    case TestsNotExecuted => !r.testsExecuted
    case TestsNotPassed => !r.testsPassed
    case CiNotGreen => !r.ciGreen
    case ChangedFilesMissing => c.files == []
    case DiffStatsMissing => !c.statsPresent
    case FilesCountExceeded => Over(p.changedFiles, |c.files|) || Over(t.changedFiles, |c.files|)
    case DiffLinesExceeded => Over(p.diffLines, c.lines) || Over(t.diffLines, c.lines)
    case GeneratedPathTouched => Touches(glob, c.files, p.generated)
    case BinaryFileTouched => HasExtension(c.files, p.binary)
    case RuntimePathTouched => Touches(glob, c.files, p.runtime)
    case ContractPathTouched => Touches(glob, c.files, p.contract)
  }

  /** Everything the objections are about. */
  datatype Facts = Facts(r: Rubric, c: Change, p: AutoProgression, glob: Glob)

  predicate Objects(x: Reason, f: Facts) { Objection(x, f.r, f.c, f.p, f.glob) }

  /** The place of a reason in the list; a forbidden path is reported early when the rubric saw it, else late. */
  function Rank(x: Reason, untouched: bool): nat {
    match x
    case DeclaredObservedMismatch => 0
    case CategoryNotEligible => 1
    case CategoryConstraintsMissing => 2
    case ForbiddenPathTouched => if untouched then 13 else 3
    case DiffSizeLimitExceeded => 4
    case TestsNotDeclared => 5
    case TestsNotExecuted => 6
    case TestsNotPassed => 7
    case CiNotGreen => 8
    case ChangedFilesMissing => 9
    case DiffStatsMissing => 10
    case FilesCountExceeded => 11
    case DiffLinesExceeded => 12
    case GeneratedPathTouched => 14
    case BinaryFileTouched => 15
    case RuntimePathTouched => 16
    case ContractPathTouched => 17
  }

  function Place(x: Reason, f: Facts): nat { Rank(x, f.r.forbiddenUntouched) }

  /** Exactly the objections placed before n, in their places. */
  ghost predicate UpTo(reasons: seq<Reason>, n: nat, f: Facts) {
    InPlaces(reasons, f) && forall x :: x in reasons <==> Place(x, f) < n && Objects(x, f)
  }

  /** All of them. */
  ghost predicate Lists(reasons: seq<Reason>, f: Facts) { UpTo(reasons, 18, f) }

  ghost predicate InPlaces(reasons: seq<Reason>, f: Facts) {
    forall i, j :: 0 <= i < j < |reasons| ==> Place(reasons[i], f) < Place(reasons[j], f)
  }

  /** That leaves no choice: the list is determined. */
  lemma ListIsDetermined(a: seq<Reason>, b: seq<Reason>, f: Facts)
    requires Lists(a, f) && Lists(b, f)
    ensures a == b
  {
    assert InPlaces(a, f) && InPlaces(b, f);
    SameInPlaces(a, b, f);
  }

  lemma {:induction false} SameInPlaces(a: seq<Reason>, b: seq<Reason>, f: Facts)
    requires InPlaces(a, f) && InPlaces(b, f) && forall x :: x in a <==> x in b
    ensures a == b
  {
    assert a != [] ==> a[|a| - 1] in b;
    assert b != [] ==> b[|b| - 1] in a;
    if a != [] && b != [] {
      LastIsLast(a, b, f);
      LastIsLast(b, a, f);
      SamePlace(a[|a| - 1], b[|b| - 1], f);
      var frontA, frontB := a[..|a| - 1], b[..|b| - 1];
      forall x ensures x in frontA <==> x in frontB {
        FrontMembers(a, x, f);
        FrontMembers(b, x, f);
      }
      SameInPlaces(frontA, frontB, f);
      assert a == frontA + [a[|a| - 1]] && b == frontB + [b[|b| - 1]];
    }
  }

  lemma LastIsLast(a: seq<Reason>, b: seq<Reason>, f: Facts)
    requires InPlaces(b, f) && a != [] && b != [] && a[|a| - 1] in b
    ensures Place(a[|a| - 1], f) <= Place(b[|b| - 1], f)
  {
  }

  lemma FrontMembers(a: seq<Reason>, x: Reason, f: Facts)
    requires InPlaces(a, f) && a != []
    ensures x in a[..|a| - 1] <==> x in a && x != a[|a| - 1]
  {
    var front := a[..|a| - 1];
    if x in front {
      var i :| 0 <= i < |front| && front[i] == x;
      assert Place(a[i], f) < Place(a[|a| - 1], f);
    }
  }

  lemma SamePlace(x: Reason, y: Reason, f: Facts)
    requires Place(x, f) == Place(y, f)
    ensures x == y
  {
  }

  /** `_append_reason` after a test. */
  function Append(reasons: seq<Reason>, holds: bool, x: Reason): seq<Reason> {
    if holds && x !in reasons then reasons + [x] else reasons
  }

  /** The test for place n: the objection that has this place, or one that was noted at its other place. */
  method Note(reasons: seq<Reason>, holds: bool, x: Reason, ghost n: nat, ghost f: Facts) returns (r: seq<Reason>)
    requires UpTo(reasons, n, f)
    requires if Place(x, f) == n then holds == Objects(x, f)
             else (holds ==> x in reasons) && forall y :: Place(y, f) != n
    ensures UpTo(r, n + 1, f)
  {
    r := Append(reasons, holds, x);
    if Place(x, f) == n {
      forall y | Place(y, f) == n ensures y == x { SamePlace(y, x, f); }
    }
  }

  lemma SkipPlace(reasons: seq<Reason>, x: Reason, f: Facts)
    requires UpTo(reasons, Place(x, f), f) && !Objects(x, f)
    ensures UpTo(reasons, Place(x, f) + 1, f)
  {
    forall y | Place(y, f) == Place(x, f) ensures y == x { SamePlace(y, x, f); }
  }

  method NoteRubric(r: Rubric, p: AutoProgression, ghost f: Facts) returns (reasons: seq<Reason>)
    requires f.r == r && f.p == p
    ensures UpTo(reasons, 5, f)
  {
    var category := Strip(r.observed);
    reasons := Note([], Strip(r.declared) != category, DeclaredObservedMismatch, 0, f);
    if category !in p.eligible {
      reasons := Note(reasons, true, CategoryNotEligible, 1, f);
      SkipPlace(reasons, CategoryConstraintsMissing, f);
    } else {
      SkipPlace(reasons, CategoryNotEligible, f);
      reasons := Note(reasons, Find(p.thresholds, category).None?, CategoryConstraintsMissing, 2, f);
    }
    reasons := Note(reasons, !r.forbiddenUntouched, ForbiddenPathTouched, 3, f);
    reasons := Note(reasons, !r.sizeWithinLimit, DiffSizeLimitExceeded, 4, f);
  }

  method NoteTests(before: seq<Reason>, r: Rubric, ghost f: Facts) returns (reasons: seq<Reason>)
    requires f.r == r && UpTo(before, 5, f)
    ensures UpTo(reasons, 9, f)
  {
    reasons := Note(before, !r.testsDeclared, TestsNotDeclared, 5, f);
    reasons := Note(reasons, !r.testsExecuted, TestsNotExecuted, 6, f);
    reasons := Note(reasons, !r.testsPassed, TestsNotPassed, 7, f);
    reasons := Note(reasons, !r.ciGreen, CiNotGreen, 8, f);
  }

  method NoteSize(before: seq<Reason>, c: Change, p: AutoProgression, t: Threshold, ghost f: Facts) returns (reasons: seq<Reason>)
    requires f.c == c && f.p == p && t == ThresholdFor(p, Strip(f.r.observed)) && UpTo(before, 9, f)
    ensures UpTo(reasons, 13, f)
  {
    LimitCombines(p.changedFiles, t.changedFiles, |c.files|);
    LimitCombines(p.diffLines, t.diffLines, c.lines);
    reasons := Note(before, c.files == [], ChangedFilesMissing, 9, f);
    reasons := Note(reasons, !c.statsPresent, DiffStatsMissing, 10, f);
    reasons := Note(reasons, Over(Limit(p.changedFiles, t.changedFiles), |c.files|), FilesCountExceeded, 11, f);
    reasons := Note(reasons, Over(Limit(p.diffLines, t.diffLines), c.lines), DiffLinesExceeded, 12, f);
  }

  /** Places a forbidden path the rubric did not see, when the rubric saw none. */
  lemma ForbiddenStep(before: seq<Reason>, holds: bool, f: Facts)
    requires UpTo(before, 13, f) && holds == Touches(f.glob, f.c.files, ThresholdFor(f.p, Strip(f.r.observed)).forbidden)
    ensures if Place(ForbiddenPathTouched, f) == 13 then holds == Objects(ForbiddenPathTouched, f)
            else (holds ==> ForbiddenPathTouched in before) && forall y :: Place(y, f) != 13
  {
    if !f.r.forbiddenUntouched { assert Objects(ForbiddenPathTouched, f) && Place(ForbiddenPathTouched, f) < 13; }
  }

  lemma AlreadyNoted(reasons: seq<Reason>, holds: bool, x: Reason, n: nat, f: Facts)
    requires UpTo(reasons, n, f) && Place(x, f) < n && (holds ==> Objects(x, f))
    ensures Append(reasons, holds, x) == reasons
  {
  }

  /** The category's own tests only repeat what was already asked. */
  method NoteTestsAgain(before: seq<Reason>, r: Rubric, ghost f: Facts) returns (reasons: seq<Reason>)
    requires f.r == r && UpTo(before, 14, f)
    ensures reasons == before
  {
    AlreadyNoted(before, !r.testsDeclared, TestsNotDeclared, 14, f);
    AlreadyNoted(before, !r.testsExecuted, TestsNotExecuted, 14, f);
    AlreadyNoted(before, !r.testsPassed, TestsNotPassed, 14, f);
    reasons := Append(before, !r.testsDeclared, TestsNotDeclared);
    reasons := Append(reasons, !r.testsExecuted, TestsNotExecuted);
    reasons := Append(reasons, !r.testsPassed, TestsNotPassed);
  }

  /** The category's own paths, tests and CI. */
  method NoteCategory(before: seq<Reason>, r: Rubric, c: Change, t: Threshold, glob: Glob, ghost f: Facts) returns (reasons: seq<Reason>)
    requires f.r == r && f.c == c && f.glob == glob && t == ThresholdFor(f.p, Strip(r.observed)) && UpTo(before, 13, f)
    ensures UpTo(reasons, 14, f)
  {
    var touched := t.forbidden != [] && Touches(glob, c.files, t.forbidden);
    ForbiddenStep(before, touched, f);
    reasons := Note(before, touched, ForbiddenPathTouched, 13, f);
    if t.tests != [] {
      reasons := NoteTestsAgain(reasons, r, f);
    }
    AlreadyNoted(reasons, t.ciGreen == Some(true) && !r.ciGreen, CiNotGreen, 14, f);
    reasons := Append(reasons, t.ciGreen == Some(true) && !r.ciGreen, CiNotGreen);
  }

  method NotePaths(before: seq<Reason>, files: seq<string>, p: AutoProgression, glob: Glob, ghost f: Facts) returns (reasons: seq<Reason>)
    requires f.c.files == files && f.p == p && f.glob == glob && UpTo(before, 14, f)
    ensures Lists(reasons, f)
  {
    reasons := Note(before, Touches(glob, files, p.generated), GeneratedPathTouched, 14, f);
    reasons := Note(reasons, HasExtension(files, p.binary), BinaryFileTouched, 15, f);
    reasons := Note(reasons, Touches(glob, files, p.runtime), RuntimePathTouched, 16, f);
    reasons := Note(reasons, Touches(glob, files, p.contract), ContractPathTouched, 17, f);
  }

  datatype Progression = ManualOnly | PolicyEligible | AutoPrCandidate

  predicate Unobjectionable(r: Rubric, c: Change, p: AutoProgression, glob: Glob) {
    forall x :: !Objection(x, r, c, p, glob)
  }

  ghost function ProgressionOf(r: Rubric, c: Change, p: AutoProgression, glob: Glob): Progression {
    if !Unobjectionable(r, c, p, glob) then ManualOnly
    else if Strip(r.observed) in p.autoPr then AutoPrCandidate
    else PolicyEligible
  }

  /** The reasons are exactly the objections, each once and in its place ... */
  method CollectObjections(r: Rubric, c: Change, p: AutoProgression, glob: Glob) returns (reasons: seq<Reason>)
    ensures Lists(reasons, Facts(r, c, p, glob))
  {
    ghost var f := Facts(r, c, p, glob);
    var t := ThresholdFor(p, Strip(r.observed));
    reasons := NoteRubric(r, p, f);
    reasons := NoteTests(reasons, r, f);
    reasons := NoteSize(reasons, c, p, t, f);
    reasons := NoteCategory(reasons, r, c, t, glob, f);
    reasons := NotePaths(reasons, c.files, p, glob, f);
  }

  /** ... and without any the change progresses. */
  method DeriveProgression(r: Rubric, c: Change, p: AutoProgression, glob: Glob)
    returns (state: Progression, reasons: seq<Reason>)
    ensures Lists(reasons, Facts(r, c, p, glob))
    ensures state == ProgressionOf(r, c, p, glob)
  {
    reasons := CollectObjections(r, c, p, glob);
    ListsMeans(reasons, r, c, p, glob);
    if reasons != [] {
      assert Objection(reasons[0], r, c, p, glob);
      return ManualOnly, reasons;
    }
    var category := Strip(r.observed);
    state := if category in p.autoPr && category in p.eligible then AutoPrCandidate else PolicyEligible;
    assert !Objection(CategoryNotEligible, r, c, p, glob);
  }

  lemma ListsMeans(reasons: seq<Reason>, r: Rubric, c: Change, p: AutoProgression, glob: Glob)
    requires Lists(reasons, Facts(r, c, p, glob))
    ensures forall x :: x in reasons <==> Objection(x, r, c, p, glob)
  {
    forall x ensures x in reasons <==> Objection(x, r, c, p, glob) {
      assert Place(x, Facts(r, c, p, glob)) < 18;
    }
  }

  // ---- lifecycle ----

  const APPROVED := "approved_for_merge"

  const MERGE_BLOCKED := {"blocked", "behind", "dirty", "draft"}

  function LifecycleOf(eligible: bool, autoPr: bool, v: View): string {
    if !eligible then "manual_only"
    else if !autoPr then "policy_eligible"
    else if !v.available || v.repository == "" || v.targetRef == "" then "auto_pr_candidate"
    else if v.review == "changes_requested" || v.mergeability in MERGE_BLOCKED then "merge_blocked"
    else if v.checks == "pending" then "checks_pending"
    else if v.checks != "passing" then "pr_preparable"
    else if v.review != "approved" then "review_pending"
    else if v.mergeability == "clean" then APPROVED
    else "checks_green"
  }

  /** Everything GitHub has to say for a merge. */
  predicate GithubAgrees(v: View) {
    && v.available && v.repository != "" && v.targetRef != ""
    && v.checks == "passing" && v.review == "approved" && v.mergeability == "clean"
  }

  lemma ApprovedIff(eligible: bool, autoPr: bool, v: View)
    ensures LifecycleOf(eligible, autoPr, v) == APPROVED <==> eligible && autoPr && GithubAgrees(v)
  {
    assert "clean" !in MERGE_BLOCKED;
  }

  // ---- write authority ----

  datatype WriteState = Disabled | WriteBlocked | WritePreparable | DryRunOnly | WriteAllowed

  datatype WriteReason =
    | AuthorityDisabled | KillSwitchOn | CategoryNotAllowed | PolicyNotEligible | NotAutoPrCandidate | LifecycleNotReady
    | GithubUnavailable | TargetIdentityMissing | WriteChecksNotPassing | WriteReviewNotApproved | WriteNotClean

  /** The write reasons that are looked for once authority is on and the category allowed. */
  predicate WriteObjection(x: WriteReason, states: seq<string>, lifecycle: string, eligible: bool, autoPr: bool, v: View) {
    match x
    case PolicyNotEligible => !eligible
    case NotAutoPrCandidate => !autoPr
    case LifecycleNotReady => lifecycle !in states
    case _ => GithubObjection(x, v)
  }

  ghost function WriteStateOf(w: WriteAuthority, category: string, lifecycle: string, eligible: bool, autoPr: bool, v: View): WriteState {
    if !w.enabled then Disabled
    else if w.killSwitch || Strip(category) !in w.categories then WriteBlocked
    else if exists x :: WriteObjection(x, w.states, lifecycle, eligible, autoPr, v) then WritePreparable
    else if w.dryRun then DryRunOnly
    else WriteAllowed
  }

  /** The place of a write reason; the first three are given alone. */
  function WritePlace(x: WriteReason): nat {
    match x
    case AuthorityDisabled | KillSwitchOn | CategoryNotAllowed => 0
    case PolicyNotEligible => 1
    case NotAutoPrCandidate => 2
    case LifecycleNotReady => 3
    case GithubUnavailable => 4
    case TargetIdentityMissing => 5
    case WriteChecksNotPassing => 6
    case WriteReviewNotApproved => 7
    case WriteNotClean => 8
  }

  /** What writing is judged on. */
  datatype WriteFacts = WriteFacts(states: seq<string>, lifecycle: string, eligible: bool, autoPr: bool, v: View)

  predicate ObjectsToWrite(x: WriteReason, g: WriteFacts) { WriteObjection(x, g.states, g.lifecycle, g.eligible, g.autoPr, g.v) }

  ghost predicate WriteUpTo(reasons: seq<WriteReason>, n: nat, g: WriteFacts) {
    && (forall i, j :: 0 <= i < j < |reasons| ==> WritePlace(reasons[i]) < WritePlace(reasons[j]))
    && (forall x :: x in reasons <==> WritePlace(x) <= n && ObjectsToWrite(x, g))
  }

  /** Exactly the write objections, each in its place. */
  ghost predicate ListsWrite(reasons: seq<WriteReason>, g: WriteFacts) { WriteUpTo(reasons, 8, g) }

  method NoteWrite(reasons: seq<WriteReason>, holds: bool, x: WriteReason, ghost g: WriteFacts) returns (r: seq<WriteReason>)
    requires WritePlace(x) > 0 && WriteUpTo(reasons, WritePlace(x) - 1, g) && holds == ObjectsToWrite(x, g)
    ensures WriteUpTo(r, WritePlace(x), g)
  {
    r := if holds && x !in reasons then reasons + [x] else reasons;
    assert forall y :: WritePlace(y) == WritePlace(x) ==> y == x;
  }

  predicate GithubObjection(x: WriteReason, v: View) {
    match x
    case GithubUnavailable => !v.available
    case TargetIdentityMissing => v.repository == "" || v.targetRef == ""
    case WriteChecksNotPassing => v.checks != "passing"
    case WriteReviewNotApproved => v.review != "approved"
    case WriteNotClean => v.mergeability != "clean"
    case _ => false
  }

  method NoteGithub(before: seq<WriteReason>, v: View, ghost g: WriteFacts) returns (reasons: seq<WriteReason>)
    requires g.v == v && WriteUpTo(before, 3, g)
    ensures ListsWrite(reasons, g)
  {
    reasons := NoteWrite(before, !v.available, GithubUnavailable, g);
    reasons := NoteWrite(reasons, v.repository == "" || v.targetRef == "", TargetIdentityMissing, g);
    reasons := NoteWrite(reasons, v.checks != "passing", WriteChecksNotPassing, g);
    reasons := NoteWrite(reasons, v.review != "approved", WriteReviewNotApproved, g);
    reasons := NoteWrite(reasons, v.mergeability != "clean", WriteNotClean, g);
  }

  method CollectWriteObjections(states: seq<string>, lifecycle: string, eligible: bool, autoPr: bool, v: View)
    returns (reasons: seq<WriteReason>)
    ensures ListsWrite(reasons, WriteFacts(states, lifecycle, eligible, autoPr, v))
  {
    ghost var g := WriteFacts(states, lifecycle, eligible, autoPr, v);
    reasons := NoteWrite([], !eligible, PolicyNotEligible, g);
    reasons := NoteWrite(reasons, !autoPr, NotAutoPrCandidate, g);
    reasons := NoteWrite(reasons, lifecycle !in states, LifecycleNotReady, g);
    reasons := NoteGithub(reasons, v, g);
  }

  /** The reasons say what stands in the way of writing, in order; there are none exactly when writing is cleared. */
  ghost predicate ExplainsWrite(reasons: seq<WriteReason>, w: WriteAuthority, category: string, g: WriteFacts) {
    if !w.enabled then reasons == [AuthorityDisabled]
    else if w.killSwitch then reasons == [KillSwitchOn]
    else if Strip(category) !in w.categories then reasons == [CategoryNotAllowed]
    else ListsWrite(reasons, g)
  }

  method DeriveWriteAuthority(w: WriteAuthority, category: string, lifecycle: string, eligible: bool, autoPr: bool, v: View)
    returns (state: WriteState, reasons: seq<WriteReason>)
    ensures state == WriteStateOf(w, category, lifecycle, eligible, autoPr, v)
    ensures reasons == [] <==> state == DryRunOnly || state == WriteAllowed
    ensures ExplainsWrite(reasons, w, category, WriteFacts(w.states, lifecycle, eligible, autoPr, v))
  {
    if !w.enabled {
      return Disabled, [AuthorityDisabled];
    }
    if w.killSwitch {
      return WriteBlocked, [KillSwitchOn];
    }
    if Strip(category) !in w.categories {
      return WriteBlocked, [CategoryNotAllowed];
    }
    reasons := CollectWriteObjections(w.states, lifecycle, eligible, autoPr, v);
    if reasons != [] {
      assert ObjectsToWrite(reasons[0], WriteFacts(w.states, lifecycle, eligible, autoPr, v));
      assert WriteObjection(reasons[0], w.states, lifecycle, eligible, autoPr, v);
      return WritePreparable, reasons;
    }
    NoneListed(WriteFacts(w.states, lifecycle, eligible, autoPr, v));
    state := if w.dryRun then DryRunOnly else WriteAllowed;
  }

  lemma NoneListed(g: WriteFacts)
    requires ListsWrite([], g)
    ensures forall x :: !WriteObjection(x, g.states, g.lifecycle, g.eligible, g.autoPr, g.v)
  {
    forall x ensures !WriteObjection(x, g.states, g.lifecycle, g.eligible, g.autoPr, g.v) {
      assert WritePlace(x) <= 8 && x !in [];
      assert !ObjectsToWrite(x, g);
    }
  }

  // ---- the gate ----

  /** What the gate is called with; the policy and the signals are documents. */
  datatype Request = Request(rubric: Rubric, policy: RawPolicy, changedFiles: seq<string>, additions: int, deletions: int,
                             statsPresent: bool, signals: Option<Signals>)

  datatype Decision = Decision(progression: Progression, lifecycle: string, write: WriteState)

  function ChangeOf(q: Request): Change { Change(NormalizePaths(q.changedFiles), q.additions + q.deletions, q.statsPresent) }

  ghost function Decide(r: Rubric, c: Change, p: Policy, v: View, glob: Glob): Decision {
    var progression := ProgressionOf(r, c, p.auto, glob);
    var eligible, autoPr := progression != ManualOnly, progression == AutoPrCandidate;
    var lifecycle := LifecycleOf(eligible, autoPr, v);
    Decision(progression, lifecycle, WriteStateOf(p.write, r.observed, lifecycle, eligible, autoPr, v))
  }

  ghost function Gate(q: Request, glob: Glob): Decision {
    Decide(q.rubric, ChangeOf(q), GateReading(q.policy), ViewOf(q.signals), glob)
  }

  function FactsOf(w: WriteAuthority, d: Decision, v: View): WriteFacts {
    WriteFacts(w.states, d.lifecycle, d.progression != ManualOnly, d.progression == AutoPrCandidate, v)
  }

  method MakeDecision(r: Rubric, c: Change, p: Policy, v: View, glob: Glob)
    returns (d: Decision, reasons: seq<Reason>, writeReasons: seq<WriteReason>)
    ensures d == Decide(r, c, p, v, glob)
    ensures Lists(reasons, Facts(r, c, p.auto, glob))
    ensures writeReasons == [] <==> d.write == DryRunOnly || d.write == WriteAllowed
    ensures ExplainsWrite(writeReasons, p.write, r.observed, FactsOf(p.write, d, v))
  {
    var progression, write;
    progression, reasons := DeriveProgression(r, c, p.auto, glob);
    var eligible, autoPr := progression != ManualOnly, progression == AutoPrCandidate;
    var lifecycle := LifecycleOf(eligible, autoPr, v);
    write, writeReasons := DeriveWriteAuthority(p.write, r.observed, lifecycle, eligible, autoPr, v);
    d := Decision(progression, lifecycle, write);
  }

  method DeriveDecision(q: Request, glob: Glob) returns (d: Decision, reasons: seq<Reason>, writeReasons: seq<WriteReason>)
    ensures d == Gate(q, glob)
    ensures Lists(reasons, Facts(q.rubric, ChangeOf(q), GateReading(q.policy).auto, glob))
    ensures writeReasons == [] <==> d.write == DryRunOnly || d.write == WriteAllowed
    ensures ExplainsWrite(writeReasons, GateReading(q.policy).write, q.rubric.observed,
                          FactsOf(GateReading(q.policy).write, d, ViewOf(q.signals)))
  {
    var files := CollectPaths(q.changedFiles);
    var c := Change(files, q.additions + q.deletions, q.statsPresent);
    assert c == ChangeOf(q);
    d, reasons, writeReasons := MakeDecision(q.rubric, c, GateReading(q.policy), ViewOf(q.signals), glob);
  }
}
