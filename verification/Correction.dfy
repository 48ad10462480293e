/** The correction pass of scripts/run_planned_execution.py: each unit's reported changes against git. */
module Correction {
  import opened Options
  import opened Text
  import opened Values
  import opened SortedTexts
  import opened Accounting

  datatype Triple = Triple(files: seq<string>, additions: nat, deletions: nat) {
    predicate Empty() { files == [] && additions == 0 && deletions == 0 }
  }

  /** The change fields of a result file, or of the git accounting; a missing field is null. */
  datatype Payload = Payload(files: Value, additions: Value, deletions: Value)

  /** None is the ValueError of a text like "--5". */
  function LooseCount(v: Value): Option<nat> {
    match v
    case Flag(_) => Some(0)
    case Number(n) => Some(if n < 0 then 0 else n)
    case _ =>
      var r := IntOf(TextOf(v));
      if r.Raises? then None else if r.AnInt? && r.n > 0 then Some(r.n) else Some(0)
  }

  function Reported(p: Payload): Option<Triple> {
    var additions, deletions := LooseCount(p.additions), LooseCount(p.deletions);
    if additions.None? || deletions.None? then None
    else Some(Triple(SortedFiles(p.files), additions.value, deletions.value))
  }

  function AsPayload(t: Triple): Payload { Payload(TextList(t.files), Number(t.additions), Number(t.deletions)) }

  lemma ReportSettles(p: Payload)
    requires Reported(p).Some?
    ensures Reported(AsPayload(Reported(p).value)) == Reported(p)
  {
    ListsSettle(p.files);
  }

  // ---- correcting one result ----

  datatype Source = DryRunNoMutation | NoGit | GitDiff | Combined
  datatype Status = DryRun | AccountingFailed | NoChanges | Accurate | Inconsistent
  datatype Reason =
    | DryRunWithoutRepo | DryRunNoClaim | GitUnavailable
    | GitReportsNoChanges | GitMatchesReport | CorrectedEmptyReport | CorrectedMismatch

  datatype Verdict = Verdict(source: Source, status: Status, reason: Reason)

  datatype Corrected = Corrected(codex: Triple, final: Triple, verdict: Verdict)

  /** `git` is None when there is no usable git accounting. */
  datatype Mode = Mode(git: Option<Payload>, dryRun: bool, repo: bool)

  predicate Live(m: Mode) { m.git.Some? && !m.dryRun }

  function LiveVerdict(codex: Triple, git: Triple): Verdict {
    if git.Empty() then Verdict(GitDiff, NoChanges, GitReportsNoChanges)
    else if codex == git then Verdict(Combined, Accurate, GitMatchesReport)
    else if (git.files != [] && codex.files == [])
            || ((git.additions > 0 || git.deletions > 0) && codex.additions == 0 && codex.deletions == 0)
    then Verdict(Combined, Inconsistent, CorrectedEmptyReport)
    else Verdict(Combined, Inconsistent, CorrectedMismatch)
  }

  function DryRunVerdict(m: Mode): Verdict {
    Verdict(DryRunNoMutation, DryRun, if m.git.None? && !m.repo then DryRunWithoutRepo else DryRunNoClaim)
  }

  /** None is a ValueError. */
  function Correct(p: Payload, m: Mode): Option<Corrected> {
    var codex := Reported(p);
    if codex.None? then None
    else if m.git.None? then
      Some(Corrected(codex.value, codex.value, if m.dryRun then DryRunVerdict(m) else Verdict(NoGit, AccountingFailed, GitUnavailable)))
    else
      var git := Reported(m.git.value);
      if git.None? then None
      else if m.dryRun then Some(Corrected(codex.value, codex.value, DryRunVerdict(m)))
      else Some(Corrected(codex.value, git.value, LiveVerdict(codex.value, git.value)))
  }

  /** Not a flag or number, and its text is two dashes or more in front of digits. */
  predicate BadCount(v: Value) { !v.Flag? && !v.Number? && DoubleDashed(TextOf(v)) }

  predicate HasBadCount(p: Payload) { BadCount(p.additions) || BadCount(p.deletions) }

  lemma UnreadableIff(p: Payload)
    ensures Reported(p).None? <==> HasBadCount(p)
  {
    RaisesIff(TextOf(p.additions));
    RaisesIff(TextOf(p.deletions));
  }

  method BuildCorrected(p: Payload, m: Mode) returns (r: Option<Corrected>)
    ensures r == Correct(p, m)
    ensures r.None? <==> HasBadCount(p) || (m.git.Some? && HasBadCount(m.git.value))
  {
    UnreadableIff(p);
    if m.git.Some? { UnreadableIff(m.git.value); }
    var codex := Reported(p);
    if codex.None? { return None; }
    var final, source, status, reason := codex.value, DryRunNoMutation, DryRun, DryRunNoClaim;
    if m.git.None? {
      if !m.dryRun {
        source, status, reason := NoGit, AccountingFailed, GitUnavailable;
      } else if !m.repo {
        reason := DryRunWithoutRepo;
      }
      return Some(Corrected(codex.value, final, Verdict(source, status, reason)));
    }
    var git := Reported(m.git.value);
    if git.None? { return None; }
    if !m.dryRun {
      final := git.value;
      var emptyDespiteGit := (final.files != [] && codex.value.files == [])
        || ((final.additions > 0 || final.deletions > 0) && codex.value.additions == 0 && codex.value.deletions == 0);
      if final.files == [] && final.additions == 0 && final.deletions == 0 {
        source, status, reason := GitDiff, NoChanges, GitReportsNoChanges;
      } else if codex.value == final {
        source, status, reason := Combined, Accurate, GitMatchesReport;
      } else {
        source, status, reason := Combined, Inconsistent, if emptyDespiteGit then CorrectedEmptyReport else CorrectedMismatch;
      }
    }
    return Some(Corrected(codex.value, final, Verdict(source, status, reason)));
  }

  /** Correcting settles: a second pass over a corrected result keeps its triple and never calls it inconsistent,
      and a third pass changes nothing. What Codex had reported is then gone. */
  lemma CorrectionSettles(p: Payload, m: Mode)
    requires Correct(p, m).Some?
    ensures var once := Correct(p, m).value;
            var twice := Correct(AsPayload(once.final), m);
            && twice.Some? && twice.value.final == once.final && twice.value.codex == once.final
            && twice.value.verdict.status != Inconsistent
            && (Live(m) ==> twice.value.verdict.status == if once.final.Empty() then NoChanges else Accurate)
            && (!Live(m) ==> twice.value.verdict == once.verdict)
            && Correct(AsPayload(twice.value.final), m) == twice
  {
    ReportSettles(p);
    if m.git.Some? { ReportSettles(m.git.value); }
  }

  /** Live, the result is whatever git says; otherwise it is the report. And a live pass is quiet exactly when git
      saw nothing or just what was reported. */
  lemma FinalIs(p: Payload, m: Mode)
    requires Correct(p, m).Some?
    ensures var c := Correct(p, m).value;
            && Some(c.final) == Reported(if Live(m) then m.git.value else p)
            && (c.verdict.status == Inconsistent <==>
                Live(m) && !Reported(m.git.value).value.Empty() && Reported(p) != Reported(m.git.value))
  {
  }

  // ---- all units of a manifest ----

  datatype Refreshed = Refreshed(files: map<string, Payload>, records: seq<Triple>, raised: bool)

  /** One unit, named by its result path; a blank or missing one is passed over. */
  function RefreshOne(s: Refreshed, path: string, m: Mode): Refreshed {
    if path == "" || path !in s.files then s
    else
      var c := Correct(s.files[path], m);
      if c.None? then s.(raised := true)
      else Refreshed(s.files[path := AsPayload(c.value.final)], s.records + [c.value.final], false)
  }

  function RefreshAll(files: map<string, Payload>, paths: seq<string>, m: Mode): Refreshed {
    if paths == [] then Refreshed(files, [], false)
    else
      var s := RefreshAll(files, paths[..|paths| - 1], m);
      if s.raised then s else RefreshOne(s, paths[|paths| - 1], m)
  }

  datatype Overview = Overview(units: nat, files: seq<string>, additions: nat, deletions: nat)

  function AllFiles(records: seq<Triple>): seq<string> {
    if records == [] then [] else AllFiles(records[..|records| - 1]) + records[|records| - 1].files
  }

  function TotalAdded(records: seq<Triple>): nat {
    if records == [] then 0 else TotalAdded(records[..|records| - 1]) + records[|records| - 1].additions
  }

  function TotalDeleted(records: seq<Triple>): nat {
    if records == [] then 0 else TotalDeleted(records[..|records| - 1]) + records[|records| - 1].deletions
  }

  function OverviewOf(records: seq<Triple>): Overview {
    Overview(|records|, SortedSet(AllFiles(records)), TotalAdded(records), TotalDeleted(records))
  }

  class ResultFiles {
    var files: map<string, Payload>

    constructor (initial: map<string, Payload>)
      ensures files == initial
    {
      files := initial;
    }

    /** None is an exception, after which the results corrected so far stay written; no unit, no overview. */
    method Refresh(paths: seq<string>, m: Mode) returns (overview: Option<Option<Overview>>)
      modifies this
      ensures files == RefreshAll(old(files), paths, m).files
      ensures overview.None? <==> RefreshAll(old(files), paths, m).raised
      ensures overview.Some? ==>
        var records := RefreshAll(old(files), paths, m).records;
        overview.value == if records == [] then None else Some(OverviewOf(records))
    {
      var records: seq<Triple> := [];
      for i := 0 to |paths|
        invariant RefreshAll(old(files), paths[..i], m) == Refreshed(files, records, false)
      {
        assert paths[..i + 1][..i] == paths[..i];
        if paths[i] == "" || paths[i] !in files { continue; }
        var c := BuildCorrected(files[paths[i]], m);
        if c.None? {
          RaisedSticks(old(files), paths, i + 1, m);
          return None;
        }
        files := files[paths[i] := AsPayload(c.value.final)];
        records := records + [c.value.final];
      }
      assert paths[..|paths|] == paths;
      if records == [] { return Some(None); }
      var o := Summarize(records);
      return Some(Some(o));
    }
  }

  method Summarize(records: seq<Triple>) returns (o: Overview)
    ensures o == OverviewOf(records)
  {
    var files, additions, deletions := [], 0, 0;
    for i := 0 to |records|
      invariant files == AllFiles(records[..i]) && additions == TotalAdded(records[..i]) && deletions == TotalDeleted(records[..i])
    {
      assert records[..i + 1][..i] == records[..i];
      files := files + records[i].files;
      additions := additions + records[i].additions;
      deletions := deletions + records[i].deletions;
    }
    assert records[..|records|] == records;
    return Overview(|records|, SortedSet(files), additions, deletions);
  }

  lemma {:induction false} RaisedSticks(files: map<string, Payload>, paths: seq<string>, k: nat, m: Mode)
    requires k <= |paths| && RefreshAll(files, paths[..k], m).raised
    ensures RefreshAll(files, paths, m) == RefreshAll(files, paths[..k], m)
  {
    if k == |paths| {
      assert paths[..k] == paths;
    } else {
      assert paths[..|paths| - 1][..k] == paths[..k];
      RaisedSticks(files, paths[..|paths| - 1], k, m);
    }
  }

  // ---- the overview counts the repository once per unit ----

  predicate AllAre(records: seq<Triple>, report: Option<Triple>) {
    forall i :: 0 <= i < |records| ==> Some(records[i]) == report
  }

  lemma LiveRecord(s: Refreshed, path: string, m: Mode)
    requires Live(m) && AllAre(s.records, Reported(m.git.value))
    ensures AllAre(RefreshOne(s, path, m).records, Reported(m.git.value))
  {
    if path in s.files && Correct(s.files[path], m).Some? { FinalIs(s.files[path], m); }
  }

  lemma {:induction false} LiveRecords(files: map<string, Payload>, paths: seq<string>, m: Mode)
    requires Live(m)
    ensures AllAre(RefreshAll(files, paths, m).records, Reported(m.git.value))
  {
    if paths != [] {
      LiveRecords(files, paths[..|paths| - 1], m);
      LiveRecord(RefreshAll(files, paths[..|paths| - 1], m), paths[|paths| - 1], m);
    }
  }

  lemma {:induction false} EqualRecords(records: seq<Triple>, t: Triple)
    requires forall i :: 0 <= i < |records| ==> records[i] == t
    ensures TotalAdded(records) == |records| * t.additions && TotalDeleted(records) == |records| * t.deletions
    ensures records != [] ==> forall f :: f in AllFiles(records) <==> f in t.files
  {
    if records != [] { EqualRecords(records[..|records| - 1], t); }
  }

  /** With git accounting in live mode the overview's lines are the repository's, times the number of units, while
      its files are the repository's once. */
  lemma LiveOverviewMultiplies(files: map<string, Payload>, paths: seq<string>, m: Mode)
    requires Live(m) && RefreshAll(files, paths, m).records != []
    ensures var o := OverviewOf(RefreshAll(files, paths, m).records);
            && Reported(m.git.value).Some?
            && var t := Reported(m.git.value).value;
            && o.additions == o.units * t.additions && o.deletions == o.units * t.deletions && o.files == t.files
  {
    var records := RefreshAll(files, paths, m).records;
    LiveRecords(files, paths, m);
    assert Some(records[0]) == Reported(m.git.value);
    var t := Reported(m.git.value).value;
    EqualRecords(records, t);
    SortedSetMeaning(AllFiles(records));
    SortedSetMeaning(FirstSeen(ItemsOf(m.git.value.files)));
    AscendingIsUnique(SortedSet(AllFiles(records)), t.files);
  }

  // ---- refreshing settles ----

  /** Correcting this result again writes what is there. */
  predicate Stable(files: map<string, Payload>, path: string, m: Mode) {
    path != "" && path in files ==>
      Correct(files[path], m).Some? && AsPayload(Correct(files[path], m).value.final) == files[path]
  }

  predicate AllStable(files: map<string, Payload>, paths: seq<string>, m: Mode) {
    forall i :: 0 <= i < |paths| ==> Stable(files, paths[i], m)
  }

  function Finals(files: map<string, Payload>, paths: seq<string>, m: Mode): seq<Triple>
    requires AllStable(files, paths, m)
  {
    if paths == [] then []
    else
      var path := paths[|paths| - 1];
      assert Stable(files, path, m);
      assert AllStable(files, paths[..|paths| - 1], m);
      Finals(files, paths[..|paths| - 1], m)
      + if path == "" || path !in files then [] else [Correct(files[path], m).value.final]
  }

  lemma {:induction false} StableIsKept(files: map<string, Payload>, paths: seq<string>, m: Mode)
    requires AllStable(files, paths, m)
    ensures RefreshAll(files, paths, m) == Refreshed(files, Finals(files, paths, m), false)
  {
    if paths != [] {
      var front, path := paths[..|paths| - 1], paths[|paths| - 1];
      assert AllStable(files, front, m) && Stable(files, path, m);
      StableIsKept(files, front, m);
      if path != "" && path in files { assert files[path := files[path]] == files; }
    }
  }

  lemma {:induction false} FinalsElsewhere(files: map<string, Payload>, path: string, p: Payload, paths: seq<string>, m: Mode)
    requires AllStable(files, paths, m) && path in files && path !in paths
    ensures AllStable(files[path := p], paths, m) && Finals(files[path := p], paths, m) == Finals(files, paths, m)
  {
    if paths != [] {
      var front := paths[..|paths| - 1];
      assert AllStable(files, front, m) && path !in front;
      FinalsElsewhere(files, path, p, front, m);
      assert paths[|paths| - 1] in paths;
      forall i | 0 <= i < |paths| ensures Stable(files[path := p], paths[i], m) {
        assert paths[i] in paths;
        assert Stable(files, paths[i], m);
      }
    }
  }

  lemma WrittenIsStable(s: Refreshed, path: string, m: Mode)
    requires !s.raised && !RefreshOne(s, path, m).raised
    ensures Stable(RefreshOne(s, path, m).files, path, m)
    ensures path != "" && path in s.files ==>
            Correct(RefreshOne(s, path, m).files[path], m).value.final == Correct(s.files[path], m).value.final
  {
    if path != "" && path in s.files { CorrectionSettles(s.files[path], m); }
  }

  predicate Sound(s: Refreshed, paths: seq<string>, m: Mode) {
    AllStable(s.files, paths, m) && s.records == Finals(s.files, paths, m)
  }

  lemma OneMoreIsSound(before: Refreshed, front: seq<string>, path: string, m: Mode)
    requires Sound(before, front, m) && !before.raised && !RefreshOne(before, path, m).raised
    ensures Sound(RefreshOne(before, path, m), front + [path], m)
  {
    var s := RefreshOne(before, path, m);
    WrittenIsStable(before, path, m);
    if path != "" && path in before.files {
      if path in front {
        var i :| 0 <= i < |front| && front[i] == path;
        assert Stable(before.files, front[i], m);
        assert s.files == before.files;
      } else {
        FinalsElsewhere(before.files, path, s.files[path], front, m);
      }
    }
    assert AllStable(s.files, front, m);
    assert (front + [path])[..|front|] == front;
  }

  lemma {:induction false} RefreshMakesStable(files: map<string, Payload>, paths: seq<string>, m: Mode)
    requires !RefreshAll(files, paths, m).raised
    ensures Sound(RefreshAll(files, paths, m), paths, m)
  {
    if paths != [] {
      var front, path := paths[..|paths| - 1], paths[|paths| - 1];
      RefreshMakesStable(files, front, m);
      OneMoreIsSound(RefreshAll(files, front, m), front, path, m);
      assert paths == front + [path];
    }
  }

  /** Refreshing twice is refreshing once: the second pass writes the same files and reports the same overview. */
  lemma RefreshSettles(files: map<string, Payload>, paths: seq<string>, m: Mode)
    requires !RefreshAll(files, paths, m).raised
    ensures RefreshAll(RefreshAll(files, paths, m).files, paths, m) == RefreshAll(files, paths, m)
  {
    RefreshMakesStable(files, paths, m);
    StableIsKept(RefreshAll(files, paths, m).files, paths, m);
  }
}
