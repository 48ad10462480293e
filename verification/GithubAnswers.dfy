/** What a collected GitHub state amounts to, said of the raw fields it was read from. */
module GithubAnswers {
  import opened Options
  import opened Text
  import opened Values
  import opened Policies
  import opened SortedTexts
  import opened GithubSnapshot

  // ---- raw fields ----

  predicate Present(v: Option<Value>) { v.Some? && v.value != Null }

  /** The value, as text, is this word but for case and white space around it. */
  predicate Says(v: Option<Value>, word: string) { Present(v) && Lower(Strip(Str(v.value))) == word }

  predicate SaysOneOf(v: Option<Value>, words: set<string>) { exists w :: w in words && Says(v, w) }

  /** A list or tuple names this text. */
  predicate Lists(v: Option<Value>, text: string) {
    v.Some? && (v.value.List? || v.value.Tuple?) && Reads(v.value.items, text)
  }

  /** Some item of it is not blank. */
  predicate ListsSome(v: Option<Value>) {
    v.Some? && (v.value.List? || v.value.Tuple?) && exists i :: 0 <= i < |v.value.items| && Strip(Str(v.value.items[i])) != ""
  }

  /** Some item reads as the text. */
  predicate Reads(items: seq<Value>, text: string) {
    exists i :: 0 <= i < |items| && Strip(Str(items[i])) == text
  }

  lemma OneMoreRead(items: seq<Value>, last: Value, text: string)
    ensures Reads(items + [last], text) <==> Reads(items, text) || Strip(Str(last)) == text
  {
    var all := items + [last];
    if Strip(Str(last)) == text { assert Strip(Str(all[|items|])) == text; }
    if i :| 0 <= i < |items| && Strip(Str(items[i])) == text { assert Strip(Str(all[i])) == text; }
    if i :| 0 <= i < |all| && Strip(Str(all[i])) == text && i < |items| { assert Strip(Str(items[i])) == text; }
  }

  lemma {:induction false} TextsMeaning(items: seq<Value>, text: string)
    ensures text in Texts(items) <==> text != "" && Reads(items, text)
  {
    if items != [] {
      var front, last := items[..|items| - 1], items[|items| - 1];
      assert items == front + [last];
      TextsMeaning(front, text);
      OneMoreRead(front, last, text);
    }
  }

  lemma NamesMeaning(v: Option<Value>, text: string)
    ensures text in Names(v) <==> text != "" && Lists(v, text)
  {
    if v.Some? && (v.value.List? || v.value.Tuple?) {
      SortedSetMeaning(Texts(v.value.items));
      TextsMeaning(v.value.items, text);
    }
  }

  lemma NamesSome(v: Option<Value>)
    ensures Names(v) != [] <==> ListsSome(v)
  {
    if Names(v) != [] {
      NamesMeaning(v, Names(v)[0]);
      assert Names(v)[0] in Names(v);
    }
    if ListsSome(v) {
      var i :| 0 <= i < |v.value.items| && Strip(Str(v.value.items[i])) != "";
      NamesMeaning(v, Strip(Str(v.value.items[i])));
    }
  }

  lemma ChoiceMeaning(v: Option<Value>, allowed: set<string>)
    ensures forall w :: Choice(v, allowed) == Some(w) <==> w in allowed && Says(v, w)
    ensures Choice(v, allowed).None? <==> !SaysOneOf(v, allowed)
  {
    if SaysOneOf(v, allowed) {
      var w :| w in allowed && Says(v, w);
    }
    if Choice(v, allowed).Some? { assert Says(v, Choice(v, allowed).value); }
  }

  // ---- booleans and numbers ----

  /** Three words for each truth value. */
  lemma BoolWordMeaning(text: string)
    ensures BoolWord(text) == Some(true) <==> Lower(Strip(text)) in {"true", "1", "yes"}
    ensures BoolWord(text) == Some(false) <==> Lower(Strip(text)) in {"false", "0", "no"}
  {
    var w := Lower(Strip(text));
    assert !(w in {"true", "1", "yes"} && w in {"false", "0", "no"}) by {
      assert |"true"| == 4 && |"1"| == 1 && |"yes"| == 3 && |"false"| == 5 && |"0"| == 1 && |"no"| == 2 && "1"[0] != "0"[0];
    }
  }

  predicate Yes(v: Option<Value>) {
    v.Some?
    && (v.value == Flag(true) || (v.value.Number? && v.value.n != 0)
        || (v.value.Words? && Lower(Strip(v.value.text)) in {"true", "1", "yes"}))
  }

  predicate No(v: Option<Value>) {
    v.Some? && (v.value == Flag(false) || v.value == Number(0) || (v.value.Words? && Lower(Strip(v.value.text)) in {"false", "0", "no"}))
  }

  lemma AnyBoolMeaning(v: Option<Value>)
    ensures AnyBool(v) == Some(true) <==> Yes(v)
    ensures AnyBool(v) == Some(false) <==> No(v)
  {
    if v.Some? && v.value.Words? { BoolWordMeaning(v.value.text); }
  }

  /** The value is this number, written as a number or as decimal digits with at most one dash. */
  predicate Denotes(v: Option<Value>, n: int) {
    v.Some?
    && (v.value == Number(n)
        || (v.value.Words? && var s := Strip(v.value.text);
            || (AllDigits(s) && Text.Value(s) == n)
            || (|s| >= 2 && s[0] == '-' && AllDigits(s[1..]) && 0 - Text.Value(s[1..]) == n)))
  }

  lemma AnyIntMeaning(v: Option<Value>, n: int)
    ensures AnyInt(v) == AnInt(n) <==> Denotes(v, n)
  {
    if v.Some? && v.value.Words? {
      var s := Strip(v.value.text);
      DropDashesStops(s);
      if AllDigits(s) { assert IsDigit(s[0]); }
      if s != "" && s[0] == '-' {
        DropDashesStops(s[1..]);
        if AllDigits(s[1..]) { assert IsDigit(s[1..][0]); }
      }
    }
  }

  /** At least n, n positive. */
  ghost predicate AtLeast(v: Option<Value>, n: int) { n > 0 && exists m :: m >= n && Denotes(v, m) }

  lemma CountMeaning(v: Option<Value>, n: int)
    requires n > 0
    ensures CountOr0(AnyInt(v)) >= n <==> AtLeast(v, n)
  {
    if AnyInt(v).AnInt? { AnyIntMeaning(v, AnyInt(v).n); }
    if AtLeast(v, n) {
      var m :| m >= n && Denotes(v, m);
      AnyIntMeaning(v, m);
    }
  }

  // ---- the three states ----

  /** Every required check is among the passing ones. */
  ghost predicate AllPassing(s: State)
    requires s.State?
  {
    forall text :: text != "" && Lists(s.requiredChecks, text) ==> Lists(s.passingChecks, text)
  }

  /** The state of the checks, word by word: the explicit one, else failing before pending before passing. */
  lemma ChecksMeaning(s: State)
    requires s.State?
    ensures var silent := !SaysOneOf(s.checksState, {"passing", "failing", "pending", "unknown"});
      var failing, pending := ListsSome(s.failingChecks), ListsSome(s.pendingChecks);
      var passing := ListsSome(s.requiredChecks) && AllPassing(s);
      && (Checks(s) == "failing" <==> Says(s.checksState, "failing") || (silent && failing))
      && (Checks(s) == "pending" <==> Says(s.checksState, "pending") || (silent && !failing && pending))
      && (Checks(s) == "passing" <==> Says(s.checksState, "passing") || (silent && !failing && !pending && passing))
      && (Checks(s) == "unknown" <==> Says(s.checksState, "unknown") || (silent && !failing && !pending && !passing))
  {
    ChoiceMeaning(s.checksState, CHECK_STATES);
    NamesSome(s.failingChecks);
    NamesSome(s.pendingChecks);
    NamesSome(s.requiredChecks);
    assert AllPassing(s) <==> forall c :: c in Names(s.requiredChecks) ==> c in Names(s.passingChecks) by {
      forall c ensures (c in Names(s.requiredChecks) <==> c != "" && Lists(s.requiredChecks, c))
                    && (c in Names(s.passingChecks) <==> c != "" && Lists(s.passingChecks, c)) {
        NamesMeaning(s.requiredChecks, c);
        NamesMeaning(s.passingChecks, c);
      }
    }
    FourWords();
  }

  lemma FourWords()
    ensures "passing" != "failing" && "passing" != "pending" && "passing" != "unknown"
    ensures "failing" != "pending" && "failing" != "unknown" && "pending" != "unknown"
  {
    assert "passing"[0] == 'p' && "failing"[0] == 'f' && "pending"[0] == 'p' && "unknown"[0] == 'u';
    assert "passing"[1] == 'a' && "pending"[1] == 'e';
  }

  /** Enough approvals: a positive number is required, and reached. */
  ghost predicate Approved(s: State)
    requires s.State?
  {
    exists n :: n > 0 && Denotes(s.requiredApprovals, n) && AtLeast(s.approvals, n)
  }

  /** The state of the review, word by word; approvals against no requirement, or none at all, are pending. */
  lemma ReviewMeaning(s: State)
    requires s.State?
    ensures var silent := !SaysOneOf(s.reviewState, {"approved", "changes_requested", "pending", "unknown"});
      var changes := AtLeast(s.changesRequested, 1);
      var open := !AtLeast(s.approvals, 1) || Denotes(s.requiredApprovals, 0) || !exists n :: Denotes(s.requiredApprovals, n);
      && (Review(s) == "changes_requested" <==> Says(s.reviewState, "changes_requested") || (silent && changes))
      && (Review(s) == "approved" <==> Says(s.reviewState, "approved") || (silent && !changes && Approved(s)))
      && (Review(s) == "pending" <==> Says(s.reviewState, "pending") || (silent && !changes && !Approved(s) && open))
      && (Review(s) == "unknown" <==> Says(s.reviewState, "unknown") || (silent && !changes && !Approved(s) && !open))
  {
    ChoiceMeaning(s.reviewState, REVIEW_STATES);
    CountMeaning(s.changesRequested, 1);
    CountMeaning(s.approvals, 1);
    RequiredMeaning(s);
    assert |"approved"| == 8 && |"changes_requested"| == 17 && |"pending"| == 7 && |"unknown"| == 7 && "pending"[0] != "unknown"[0];
  }

  lemma RequiredMeaning(s: State)
    requires s.State?
    ensures var required := AnyInt(s.requiredApprovals);
      && (Approved(s) <==> required.AnInt? && required.n > 0 && CountOr0(AnyInt(s.approvals)) >= required.n)
      && (Denotes(s.requiredApprovals, 0) <==> required == AnInt(0))
      && ((exists n :: Denotes(s.requiredApprovals, n)) <==> required.AnInt?)
  {
    var required := AnyInt(s.requiredApprovals);
    AnyIntMeaning(s.requiredApprovals, 0);
    if required.AnInt? {
      AnyIntMeaning(s.requiredApprovals, required.n);
      if required.n > 0 { CountMeaning(s.approvals, required.n); }
    }
    forall n | Denotes(s.requiredApprovals, n) ensures required == AnInt(n) { AnyIntMeaning(s.requiredApprovals, n); }
  }

  /** The merge flag: under its first name when that is there at all. */
  function MergeFlag(s: State): Option<Value>
    requires s.State?
  {
    if s.isMergeable.Some? then s.isMergeable else s.mergeable
  }

  /** The state of mergeability, word by word: a draft before what the flag says. */
  lemma MergeabilityMeaning(s: State)
    requires s.State?
    ensures var silent := !SaysOneOf(s.mergeabilityState, {"clean", "blocked", "behind", "dirty", "draft", "unknown"});
      var draft, yes, no := Yes(s.isDraft), Yes(MergeFlag(s)), No(MergeFlag(s));
      && (Draft(s) == Some(true) <==> draft)
      && (Mergeability(s) == "draft" <==> Says(s.mergeabilityState, "draft") || (silent && draft))
      && (Mergeability(s) == "clean" <==> Says(s.mergeabilityState, "clean") || (silent && !draft && yes))
      && (Mergeability(s) == "blocked" <==> Says(s.mergeabilityState, "blocked") || (silent && !draft && !yes && no))
      && (Mergeability(s) == "unknown" <==> Says(s.mergeabilityState, "unknown") || (silent && !draft && !yes && !no))
      && (Mergeability(s) == "behind" <==> Says(s.mergeabilityState, "behind"))
      && (Mergeability(s) == "dirty" <==> Says(s.mergeabilityState, "dirty"))
  {
    ChoiceMeaning(s.mergeabilityState, MERGEABILITY_STATES);
    AnyBoolMeaning(s.isDraft);
    AnyBoolMeaning(MergeFlag(s));
    assert |"clean"| == 5 && |"blocked"| == 7 && |"behind"| == 6 && |"dirty"| == 5 && |"draft"| == 5 && |"unknown"| == 7;
    assert "clean"[0] != "dirty"[0] && "dirty"[1] != "draft"[1] && "clean"[0] != "draft"[0] && "blocked"[0] != "unknown"[0];
  }

  // ---- target ----

  /** Not null and not blank. */
  predicate Given(v: Option<Value>) { Present(v) && Strip(Str(v.value)) != "" }

  function TextOf(v: Option<Value>): Option<string> { if Given(v) then Some(Strip(Str(v.value))) else None }

  /** The first name that is given counts. */
  lemma TargetMeaning(t: Target, s: State)
    requires s.State?
    ensures Repository(t, s) == if Given(s.repository) then TextOf(s.repository) else if Given(s.repo) then TextOf(s.repo) else TextOf(t.repo)
    ensures TargetRef(t, s) == if Given(s.targetRef) then TextOf(s.targetRef) else if Given(s.baseRef) then TextOf(s.baseRef)
              else if Given(s.baseBranch) then TextOf(s.baseBranch) else TextOf(t.targetRef)
  {
    FirstTwo(s.repository, s.repo, [t.repo]);
    FirstOne(t.repo);
    FirstTwo(s.targetRef, s.baseRef, [s.baseBranch, t.targetRef]);
    FirstTwo(s.baseBranch, t.targetRef, []);
    assert [s.targetRef, s.baseRef] + [s.baseBranch, t.targetRef] == [s.targetRef, s.baseRef, s.baseBranch, t.targetRef];
    assert [s.repository, s.repo] + [t.repo] == [s.repository, s.repo, t.repo];
    assert [s.baseBranch, t.targetRef] + [] == [s.baseBranch, t.targetRef];
  }

  lemma FirstOne(a: Option<Value>)
    ensures FirstNonEmpty([a]) == TextOf(a)
  {
    assert [a][1..] == [];
  }

  lemma FirstTwo(a: Option<Value>, b: Option<Value>, rest: seq<Option<Value>>)
    ensures FirstNonEmpty([a, b] + rest) == if Given(a) then TextOf(a) else if Given(b) then TextOf(b) else FirstNonEmpty(rest)
  {
    assert ([a, b] + rest)[1..] == [b] + rest && ([b] + rest)[1..] == rest;
  }

  // ---- the snapshot ----

  /** A state is fit to merge: everything said of the raw fields. */
  ghost predicate Fit(t: Target, s: State) {
    && s.State? && !HasBadCount(s)
    && (Given(s.repository) || Given(s.repo) || Given(t.repo))
    && (Given(s.targetRef) || Given(s.baseRef) || Given(s.baseBranch) || Given(t.targetRef))
    && (Says(s.checksState, "passing")
        || (!SaysOneOf(s.checksState, {"passing", "failing", "pending", "unknown"})
            && !ListsSome(s.failingChecks) && !ListsSome(s.pendingChecks) && ListsSome(s.requiredChecks) && AllPassing(s)))
    && (Says(s.reviewState, "approved")
        || (!SaysOneOf(s.reviewState, {"approved", "changes_requested", "pending", "unknown"})
            && !AtLeast(s.changesRequested, 1) && Approved(s)))
    && !Yes(s.isDraft)
    && (Says(s.mergeabilityState, "clean")
        || (!SaysOneOf(s.mergeabilityState, {"clean", "blocked", "behind", "dirty", "draft", "unknown"}) && Yes(MergeFlag(s))))
  }

  /** Collecting gives a ready snapshot exactly for a fit state without reasons added by the backend. */
  lemma ReadyIffFit(t: Target, s: State, extra: seq<Obstacle>)
    ensures IsReady(Collected(t, s, extra)) <==> Fit(t, s) && extra == []
  {
    ReadyIff(t, s, extra);
    if s.State? {
      ChecksMeaning(s);
      ReviewMeaning(s);
      MergeabilityMeaning(s);
      TargetMeaning(t, s);
    }
  }

  /** The obstacles of those that stand, in order. */
  function Kept(items: seq<(bool, Obstacle)>): seq<Obstacle> {
    if items == [] then []
    else Kept(items[..|items| - 1]) + if items[|items| - 1].0 then [items[|items| - 1].1] else []
  }

  lemma KeptMore(items: seq<(bool, Obstacle)>, c: bool, o: Obstacle)
    ensures Kept(items + [(c, o)]) == Note(Kept(items), c, o)
  {
    assert (items + [(c, o)])[..|items|] == items;
  }

  lemma NoteAdds(found: seq<Obstacle>, c: bool, o: Obstacle, x: Obstacle)
    ensures x in Note(found, c, o) <==> x in found || (c && x == o)
  {
  }

  /** What each obstacle of a state means; they are listed once each and in this order, the added ones after them. */
  predicate Stands(o: Obstacle, t: Target, s: State) {
    var f := Fields(s);
    match o
    case StateUnavailable => s.NoState?
    case RepositoryMissing => !Given(f.repository) && !Given(f.repo) && !Given(t.repo)
    case TargetRefMissing => !Given(f.targetRef) && !Given(f.baseRef) && !Given(f.baseBranch) && !Given(t.targetRef)
    case ChecksNotPassing => Checks(f) != "passing"
    case ReviewNotApproved => Review(f) != "approved"
    case MergeabilityNotClean => Mergeability(f) != "clean"
    case PullRequestIsDraft => Yes(f.isDraft)
    case _ => false
  }

  predicate Found(g: Findings, o: Obstacle) {
    match o
    case StateUnavailable => g.empty
    case RepositoryMissing => g.noRepository
    case TargetRefMissing => g.noTargetRef
    case ChecksNotPassing => g.checksNotPassing
    case ReviewNotApproved => g.notApproved
    case MergeabilityNotClean => g.notClean
    case PullRequestIsDraft => g.draft
    case _ => false
  }

  function Checked(g: Findings): seq<(bool, Obstacle)> {
    [(g.empty, StateUnavailable), (g.noRepository, RepositoryMissing), (g.noTargetRef, TargetRefMissing),
     (g.checksNotPassing, ChecksNotPassing), (g.notApproved, ReviewNotApproved), (g.notClean, MergeabilityNotClean),
     (g.draft, PullRequestIsDraft)]
  }

  /** The obstacles are kept in this order ... */
  lemma FindingsInOrder(g: Findings)
    ensures Obstacles(g) == Kept(Checked(g))
  {
    KeptMore([], g.empty, StateUnavailable);
    var a := [] + [(g.empty, StateUnavailable)];
    KeptMore(a, g.noRepository, RepositoryMissing);
    var b := a + [(g.noRepository, RepositoryMissing)];
    KeptMore(b, g.noTargetRef, TargetRefMissing);
    var c := b + [(g.noTargetRef, TargetRefMissing)];
    KeptMore(c, g.checksNotPassing, ChecksNotPassing);
    var d := c + [(g.checksNotPassing, ChecksNotPassing)];
    KeptMore(d, g.notApproved, ReviewNotApproved);
    var e := d + [(g.notApproved, ReviewNotApproved)];
    KeptMore(e, g.notClean, MergeabilityNotClean);
    var h := e + [(g.notClean, MergeabilityNotClean)];
    KeptMore(h, g.draft, PullRequestIsDraft);
    assert h + [(g.draft, PullRequestIsDraft)] == Checked(g);
  }

  /** ... and are those found. */
  lemma FindingsListed(g: Findings, o: Obstacle)
    ensures o in Obstacles(g) <==> Found(g, o)
  {
    var a := Note([], g.empty, StateUnavailable);
    var b := Note(a, g.noRepository, RepositoryMissing);
    var c := Note(b, g.noTargetRef, TargetRefMissing);
    var d := Note(c, g.checksNotPassing, ChecksNotPassing);
    var e := Note(d, g.notApproved, ReviewNotApproved);
    NoteAdds([], g.empty, StateUnavailable, o);
    NoteAdds(a, g.noRepository, RepositoryMissing, o);
    NoteAdds(b, g.noTargetRef, TargetRefMissing, o);
    NoteAdds(c, g.checksNotPassing, ChecksNotPassing, o);
    NoteAdds(d, g.notApproved, ReviewNotApproved, o);
    NoteAdds(e, g.notClean, MergeabilityNotClean, o);
    NoteAdds(Note(e, g.notClean, MergeabilityNotClean), g.draft, PullRequestIsDraft, o);
  }

  lemma ObstaclesMeaning(t: Target, s: State)
    ensures Obstacles(FindingsOf(t, s)) == Kept(Checked(FindingsOf(t, s)))
    ensures forall o :: o in Obstacles(FindingsOf(t, s)) <==> Stands(o, t, s)
  {
    FindingsInOrder(FindingsOf(t, s));
    forall o ensures o in Obstacles(FindingsOf(t, s)) <==> Stands(o, t, s) {
      FindingsListed(FindingsOf(t, s), o);
      FindingMeaning(t, s, o);
    }
  }

  lemma FindingMeaning(t: Target, s: State, o: Obstacle)
    ensures Found(FindingsOf(t, s), o) <==> Stands(o, t, s)
  {
    TargetMeaning(t, Fields(s));
    AnyBoolMeaning(Fields(s).isDraft);
  }

  lemma {:induction false} AddedAfter(found: seq<Obstacle>, extra: seq<Obstacle>)
    ensures found <= AddNew(found, extra)
  {
    if extra != [] { AddedAfter(found, extra[..|extra| - 1]); }
  }

  /** No obstacle is listed twice. */
  predicate Distinct(found: seq<Obstacle>) { forall i, j :: 0 <= i < j < |found| ==> found[i] != found[j] }

  predicate Offered(items: seq<(bool, Obstacle)>, o: Obstacle) { exists i :: 0 <= i < |items| && items[i].1 == o }

  lemma OneMoreOffered(front: seq<(bool, Obstacle)>, last: (bool, Obstacle), o: Obstacle)
    ensures Offered(front + [last], o) <==> Offered(front, o) || last.1 == o
  {
    var all := front + [last];
    assert all[|front|] == last;
    if i :| 0 <= i < |front| && front[i].1 == o { assert all[i].1 == o; }
  }

  lemma {:induction false} KeptAreOffered(items: seq<(bool, Obstacle)>, o: Obstacle)
    ensures o in Kept(items) ==> Offered(items, o)
  {
    if items != [] {
      KeptAreOffered(items[..|items| - 1], o);
      OneMoreOffered(items[..|items| - 1], items[|items| - 1], o);
      assert items == items[..|items| - 1] + [items[|items| - 1]];
    }
  }

  lemma {:induction false} KeptAreDistinct(items: seq<(bool, Obstacle)>)
    requires forall i, j :: 0 <= i < j < |items| ==> items[i].1 != items[j].1
    ensures Distinct(Kept(items))
  {
    if items != [] {
      KeptAreDistinct(items[..|items| - 1]);
      KeptAreOffered(items[..|items| - 1], items[|items| - 1].1);
    }
  }

  lemma {:induction false} AddedAreDistinct(found: seq<Obstacle>, extra: seq<Obstacle>)
    requires Distinct(found)
    ensures Distinct(AddNew(found, extra))
  {
    if extra != [] { AddedAreDistinct(found, extra[..|extra| - 1]); }
  }

  lemma OwnAreDistinct(g: Findings)
    ensures Distinct(Obstacles(g))
  {
    FindingsInOrder(g);
    KeptAreDistinct(Checked(g));
  }

  lemma ListedObstacles(t: Target, s: State, extra: seq<Obstacle>)
    ensures var found := AddNew(Obstacles(FindingsOf(t, s)), extra);
      && Obstacles(FindingsOf(t, s)) <= found && Distinct(found)
      && forall o :: o in found <==> Stands(o, t, s) || o in extra
  {
    ObstaclesMeaning(t, s);
    OwnAreDistinct(FindingsOf(t, s));
    AddedAreDistinct(Obstacles(FindingsOf(t, s)), extra);
    AddNewGrows(Obstacles(FindingsOf(t, s)), extra);
    AddedAfter(Obstacles(FindingsOf(t, s)), extra);
  }

  /** The snapshot: no state is unavailable, any obstacle is blocked, else ready; its obstacles are those that stand, then
      the added ones that are new. */
  lemma SnapshotMeaning(t: Target, s: State, extra: seq<Obstacle>)
    ensures var p := SnapshotOf(t, s, extra);
      && (p.available <==> s.State?)
      && p.repository == Repository(t, Fields(s)) && p.targetRef == TargetRef(t, Fields(s)) && p.draft == Draft(Fields(s))
      && p.checks == Checks(Fields(s)) && p.review == Review(Fields(s)) && p.mergeability == Mergeability(Fields(s))
      && p.progress == (if s.NoState? then Unavailable else if p.obstacles != [] then Blocked else Ready)
      && Kept(Checked(FindingsOf(t, s))) <= p.obstacles
      && (forall o :: o in p.obstacles <==> Stands(o, t, s) || o in extra)
      && Distinct(p.obstacles)
  {
    ListedObstacles(t, s, extra);
    FindingsInOrder(FindingsOf(t, s));
    assert SnapshotOf(t, s, extra).obstacles == AddNew(Obstacles(FindingsOf(t, s)), extra);
  }

  /** The live backend: the fetched state if there is one, else the artifact's, and an obstacle for either failure. */
  lemma LiveAnswer(t: Target, fetch: Fetch, artifact: State)
    requires LiveSnapshot(t, fetch, artifact).Some?
    ensures var got := fetch.Fetched? && fetch.state.State?;
      var s, p := if got then fetch.state else artifact, LiveSnapshot(t, fetch, artifact).value;
      && p.available == s.State? && p.checks == Checks(Fields(s)) && p.review == Review(Fields(s)) && p.mergeability == Mergeability(Fields(s))
      && (forall o :: o in p.obstacles <==>
            Stands(o, t, s) || (o == LiveStateUnavailable && !got) || (o == LiveStateFetchFailed && fetch.FetchFailed?))
  {
    SnapshotMeaning(t, if LiveState(fetch).NoState? then artifact else LiveState(fetch), LiveObstacles(fetch));
  }

  /** Ready exactly when a fit state was fetched, and the artifact's pull request number, otherwise unused, can be read. */
  lemma LiveReadyIffFit(t: Target, fetch: Fetch, artifact: State)
    ensures IsReady(LiveSnapshot(t, fetch, artifact)) <==>
            fetch.Fetched? && Fit(t, fetch.state) && (artifact.State? ==> !BadCount(artifact.prNumber))
  {
    LiveReadyOnlyOnFetchedState(t, fetch, artifact);
    ReadyIffFit(t, LiveState(fetch), []);
  }

  // ---- what the gate sees of any signals ----

  /** The word under `state`, in lower case; a missing, null or blank one is unknown, a section that is no mapping the word
      of an empty snapshot. */
  predicate Shows(section: Section<Option<Value>>, ofEmpty: string, word: string) {
    if !section.Mapping? then word == ofEmpty
    else if section.body.Some? && section.body.value != Null && Strip(Str(section.body.value)) != ""
      then word == Lower(Strip(Str(section.body.value)))
    else word == "unknown"
  }

  lemma ViewMeaning(g: Signals)
    ensures var v := ViewOf(Some(g));
      && (v.available <==> g.available.Some? && Truthy(g.available.value))
      && (v.repository == if g.target.Mapping? && Given(g.target.body.repository) then Strip(Str(g.target.body.repository.value)) else "")
      && (v.targetRef == if g.target.Mapping? && Given(g.target.body.targetRef) then Strip(Str(g.target.body.targetRef.value)) else "")
      && Shows(g.checks, "unknown", v.checks) && Shows(g.review, "pending", v.review) && Shows(g.mergeability, "unknown", v.mergeability)
  {
    UnknownIsLower();
  }

  lemma UnknownIsLower()
    ensures Lower("unknown") == "unknown" && Lower("") == ""
  {
    SmallWordIsSettled("unknown");
    StripIdempotent("unknown");
  }

  /** Without signals the gate sees nothing available. */
  lemma NoSignals()
    ensures ViewOf(None) == View(false, "", "", "unknown", "pending", "unknown")
    ensures !IsReady(Collected(Target(None, None), NoState, []))
  {
    ReadyIff(Target(None, None), NoState, []);
  }
}
