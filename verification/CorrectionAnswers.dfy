/** What correcting results makes of them, said of the values in the result files and in git's accounting. */
module CorrectionAnswers {
  import opened Options
  import opened Text
  import opened Values
  import opened SortedTexts
  import opened Accounting
  import opened Correction

  // ---- one report ----

  /** The value is this count: the number itself, or a text of digits; truth values count nothing. */
  predicate Counts(v: Value, n: nat) {
    v == Number(n) || (!v.Number? && !v.Flag? && v != Null && AllDigits(Strip(Str(v))) && Text.Value(Strip(Str(v))) == n)
  }

  lemma CountIs(v: Value, n: nat)
    requires n > 0
    ensures LooseCount(v) == Some(n) <==> Counts(v, n)
  {
    if !v.Number? && !v.Flag? {
      var s := TextOf(v);
      DropDashesStops(s);
      if AllDigits(s) { assert IsDigit(s[0]); }
    }
  }

  /** The triple read from a report: its files ascending, exactly those mentioned and not blank, and its counts, where
      whatever is no positive count is nothing. */
  lemma ReportIs(p: Payload, text: string, n: nat)
    requires Reported(p).Some? && n > 0
    ensures var t := Reported(p).value;
      && Ascending(t.files) && (text in t.files <==> text != "" && Mentioned(text, ItemsOf(p.files)))
      && (t.additions == n <==> Counts(p.additions, n)) && (t.deletions == n <==> Counts(p.deletions, n))
  {
    SortedSetMeaning(FirstSeen(ItemsOf(p.files)));
    FirstSeenMeaning(ItemsOf(p.files));
    CountIs(p.additions, n);
    CountIs(p.deletions, n);
  }

  /** What a correction reports, keeps and says of both. */
  lemma CorrectedIs(p: Payload, m: Mode)
    requires Correct(p, m).Some?
    ensures var c := Correct(p, m).value;
      var live, none := m.git.Some? && !m.dryRun, c.final.files == [] && c.final.additions == 0 && c.final.deletions == 0;
      && Some(c.codex) == Reported(p) && Some(c.final) == Reported(if live then m.git.value else p)
      && (c.verdict.status == DryRun <==> m.dryRun) && (c.verdict.status == AccountingFailed <==> !m.dryRun && m.git.None?)
      && (c.verdict.status == NoChanges <==> live && none)
      && (c.verdict.status == Accurate <==> live && !none && c.codex == c.final)
      && (c.verdict.status == Inconsistent <==> live && !none && c.codex != c.final)
  {
  }

  /** And the source and reason of each verdict. */
  lemma ReasonIs(p: Payload, m: Mode)
    requires Correct(p, m).Some?
    ensures var c := Correct(p, m).value;
      var v, empty := c.verdict, c.final.files != [] && c.codex.files == [];
      var noLines := c.final.additions + c.final.deletions > 0 && c.codex.additions + c.codex.deletions == 0;
      && (v.source == DryRunNoMutation <==> v.status == DryRun) && (v.source == NoGit <==> v.status == AccountingFailed)
      && (v.source == GitDiff <==> v.status == NoChanges)
      && (v.reason == DryRunWithoutRepo <==> m.dryRun && m.git.None? && !m.repo)
      && (v.reason == DryRunNoClaim <==> m.dryRun && (m.git.Some? || m.repo))
      && (v.reason == GitUnavailable <==> v.status == AccountingFailed) && (v.reason == GitReportsNoChanges <==> v.status == NoChanges)
      && (v.reason == GitMatchesReport <==> v.status == Accurate)
      && (v.reason == CorrectedEmptyReport <==> v.status == Inconsistent && (empty || noLines))
  {
  }

  // ---- all units ----

  /** The units that have a result, in order; one named twice is taken twice. */
  function Taken(files: map<string, Payload>, paths: seq<string>): seq<string> {
    if paths == [] then []
    else
      var path := paths[|paths| - 1];
      Taken(files, paths[..|paths| - 1]) + if path == "" || path !in files then [] else [path]
  }

  lemma {:induction false} TakenIff(files: map<string, Payload>, paths: seq<string>, path: string)
    ensures path in Taken(files, paths) <==> path in paths && path != "" && path in files
  {
    if paths != [] {
      TakenIff(files, paths[..|paths| - 1], path);
      assert paths == paths[..|paths| - 1] + [paths[|paths| - 1]];
    }
  }

  /** Where a unit's triple is read: git's accounting if there is any in a live run, else its own first result. */
  function Origin(files: map<string, Payload>, path: string, m: Mode): Option<Triple>
    requires path in files
  {
    Reported(if m.git.Some? && !m.dryRun then m.git.value else files[path])
  }

  predicate Unreadable(files: map<string, Payload>, path: string, m: Mode)
    requires path in files
  {
    HasBadCount(files[path]) || (m.git.Some? && HasBadCount(m.git.value))
  }

  /** Exactly the units taken are rewritten, each with the triple of its origin ... */
  predicate Rewritten(before: map<string, Payload>, after: map<string, Payload>, taken: seq<string>, m: Mode) {
    && after.Keys == before.Keys
    && forall path :: path in before ==>
         if path in taken then Origin(before, path, m).Some? && after[path] == AsPayload(Origin(before, path, m).value)
         else after[path] == before[path]
  }

  /** ... which is recorded for each time the unit was taken. */
  predicate Recorded(files: map<string, Payload>, records: seq<Triple>, taken: seq<string>, m: Mode) {
    && |records| == |taken|
    && forall k :: 0 <= k < |taken| ==>
         taken[k] in files && !Unreadable(files, taken[k], m) && Some(records[k]) == Origin(files, taken[k], m)
  }

  lemma CorrectsIff(p: Payload, m: Mode)
    ensures Correct(p, m).None? <==> HasBadCount(p) || (m.git.Some? && HasBadCount(m.git.value))
  {
    UnreadableIff(p);
    if m.git.Some? { UnreadableIff(m.git.value); }
  }

  /** Taken before or not, the unit corrects exactly when its first result and git's accounting are readable, to the triple
      of its origin. */
  lemma UnitCorrects(files: map<string, Payload>, s: Refreshed, taken: seq<string>, path: string, m: Mode)
    requires Rewritten(files, s.files, taken, m) && Recorded(files, s.records, taken, m) && path in files
    ensures Correct(s.files[path], m).None? <==> Unreadable(files, path, m)
    ensures Correct(s.files[path], m).Some? ==> Some(Correct(s.files[path], m).value.final) == Origin(files, path, m)
  {
    CorrectsIff(s.files[path], m);
    UnreadableIff(s.files[path]);
    if path in taken {
      var k :| 0 <= k < |taken| && taken[k] == path;
      assert !Unreadable(files, taken[k], m);
      assert Reported(s.files[path]).Some?;
      if !Live(m) { ReportSettles(files[path]); }
    }
    if Correct(s.files[path], m).Some? { FinalIs(s.files[path], m); }
  }

  lemma OneMoreUnit(files: map<string, Payload>, s: Refreshed, taken: seq<string>, path: string, t: Triple, m: Mode)
    requires Rewritten(files, s.files, taken, m) && Recorded(files, s.records, taken, m) && path in files
    requires !Unreadable(files, path, m) && Some(t) == Origin(files, path, m)
    ensures Rewritten(files, s.files[path := AsPayload(t)], taken + [path], m)
    ensures Recorded(files, s.records + [t], taken + [path], m)
  {
    forall p ensures p in taken + [path] <==> p in taken || p == path {}
  }

  /** Some unit named has a result that cannot be read, or any at all when git's accounting cannot. */
  predicate SomeUnreadable(files: map<string, Payload>, paths: seq<string>, m: Mode) {
    exists k :: 0 <= k < |paths| && paths[k] != "" && paths[k] in files && Unreadable(files, paths[k], m)
  }

  lemma OneMoreUnreadable(files: map<string, Payload>, front: seq<string>, path: string, m: Mode)
    ensures SomeUnreadable(files, front + [path], m) <==>
            SomeUnreadable(files, front, m) || (path != "" && path in files && Unreadable(files, path, m))
  {
    var all := front + [path];
    assert all[|front|] == path;
    if k :| 0 <= k < |front| && front[k] != "" && front[k] in files && Unreadable(files, front[k], m) { assert all[k] == front[k]; }
  }

  /** Refreshing raises exactly when some unit cannot be read; otherwise every unit that has a result is rewritten with the
      triple of its origin, recorded once for each time it is named, and nothing else changes. */
  lemma {:induction false} RefreshIs(files: map<string, Payload>, paths: seq<string>, m: Mode)
    ensures var s := RefreshAll(files, paths, m);
      && (s.raised <==> SomeUnreadable(files, paths, m))
      && (!s.raised ==> Rewritten(files, s.files, Taken(files, paths), m) && Recorded(files, s.records, Taken(files, paths), m))
  {
    if paths != [] {
      var front, path := paths[..|paths| - 1], paths[|paths| - 1];
      var s := RefreshAll(files, front, m);
      assert paths == front + [path];
      RefreshIs(files, front, m);
      OneMoreUnreadable(files, front, path, m);
      if path == "" || path !in files {
        assert Taken(files, paths) == Taken(files, front);
      } else if !s.raised {
        UnitCorrects(files, s, Taken(files, front), path, m);
        if !Unreadable(files, path, m) {
          OneMoreUnit(files, s, Taken(files, front), path, Origin(files, path, m).value, m);
        }
      }
    }
  }

  // ---- the overview ----

  /** One more record adds one unit, its lines, and its files to the set that is listed. */
  lemma OverviewGrows(records: seq<Triple>, t: Triple, f: string)
    ensures var o, o' := OverviewOf(records), OverviewOf(records + [t]);
      && o'.units == o.units + 1 && o'.additions == o.additions + t.additions && o'.deletions == o.deletions + t.deletions
      && (f in o'.files <==> f in o.files || f in t.files) && Ascending(o'.files)
    ensures OverviewOf([]) == Overview(0, [], 0, 0)
  {
    assert (records + [t])[..|records|] == records;
    SortedSetMeaning(AllFiles(records));
    SortedSetMeaning(AllFiles(records + [t]));
  }

  predicate ListedIn(records: seq<Triple>, f: string) { exists k :: 0 <= k < |records| && f in records[k].files }

  lemma OneMoreListed(front: seq<Triple>, t: Triple, f: string)
    ensures ListedIn(front + [t], f) <==> ListedIn(front, f) || f in t.files
  {
    var all := front + [t];
    assert all[|front|] == t;
    if k :| 0 <= k < |front| && f in front[k].files { assert f in all[k].files; }
  }

  /** So the overview lists exactly the files of its records. */
  lemma {:induction false} OverviewListsIff(records: seq<Triple>, f: string)
    ensures f in OverviewOf(records).files <==> ListedIn(records, f)
  {
    if records == [] {
      OverviewGrows([], Triple([], 0, 0), f);
    } else {
      var front, t := records[..|records| - 1], records[|records| - 1];
      assert records == front + [t];
      OverviewListsIff(front, f);
      OverviewGrows(front, t, f);
      OneMoreListed(front, t, f);
    }
  }
}
