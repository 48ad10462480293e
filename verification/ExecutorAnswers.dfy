/** What the two executors answer, first obstacle first and field by field. */
module ExecutorAnswers {
  import opened Options
  import opened Git
  import opened Outcomes
  import opened GitCommands
  import opened MergeExecutor
  import opened RollbackExecutor

  /** A ref is taken as it stands when it is full or blank, else it is the branch of that name; so it settles at once. */
  lemma RefMeaning(ref: string)
    ensures NormalizeRef(ref) == (if ref == "" || (|ref| >= 5 && ref[..5] == "refs/") then ref else "refs/heads/" + ref)
    ensures NormalizeRef(NormalizeRef(ref)) == NormalizeRef(ref)
    ensures NormalizeRef("main") == NormalizeRef("refs/heads/main") == "refs/heads/main"
  {
    assert "refs/" <= ref <==> |ref| >= 5 && ref[..5] == "refs/";
    assert "refs/" <= "refs/heads/" + ref by { assert ("refs/heads/" + ref)[..5] == "refs/"; }
    assert "refs/" <= "refs/heads/main" by { assert "refs/heads/main"[..5] == "refs/"; }
    assert "refs/heads/" + "main" == "refs/heads/main";
  }

  /** The word for the first obstacle that stands, if any. */
  function First(obstacles: seq<(bool, Reason)>): Option<Reason> {
    if obstacles == [] then None else if obstacles[0].0 then Some(obstacles[0].1) else First(obstacles[1..])
  }

  // ---- merge ----

  /** The commit a source names. */
  function Named(source: Rev, a: MergeAnswers): Option<Commit> {
    if source.Id? then (if a.sourcePresent then Some(source.commit) else None) else a.named
  }

  predicate Resolves(w: Checkout, targetRef: string, asked: bool) { asked && NormalizeRef(targetRef) in w.refs }

  /** What may stand in the way of a merge, in the order it is looked for. */
  function MergeObstacles(w: Checkout, targetRef: string, source: Rev, base: Rev, a: MergeAnswers): seq<(bool, Reason)> {
    [(!a.insideOk, FreeText(a.message)), (!a.headOk, FreeText(a.message)),
     (targetRef == "", TargetRefRequired), (source == Text(""), SourceShaRequired), (base == Text(""), BaseShaRequired),
     (!Resolves(w, targetRef, a.targetOk), FreeText(a.message)),
     (Resolves(w, targetRef, true) && w.refs[NormalizeRef(targetRef)] != Head(w), TargetRefDrift),
     (base != Id(Head(w)), BaseShaMismatch),
     (Named(source, a).None?, FreeText(a.message)), (!a.ancestryOk, FreeText(a.message)),
     (Named(source, a).Some? && Ancestor(Named(source, a).value, Head(w)), SourceAlreadyMerged)]
  }

  lemma MergeStopsAtFirst(w: Checkout, targetRef: string, source: Rev, base: Rev, a: MergeAnswers)
    ensures MergeRefusal(w, targetRef, source, base, a) == First(MergeObstacles(w, targetRef, source, base, a))
  {
    RefMeaning(targetRef);
    FirstOfEleven(MergeObstacles(w, targetRef, source, base, a));
  }

  /** The whole answer of a merge. Before git runs: skipped with the first obstacle, nothing moved. After: HEAD where git
      left it, and a status, error and ids that say so. */
  lemma MergeAnswer(t: Option<Checkout>, targetRef: string, source: Rev, base: Rev, now: string, a: MergeAnswers)
    ensures var (t', r) := ConstrainedMerge(t, targetRef, source, base, now, a);
      if t.None? then t' == t && r == MergeResult(Skipped, false, Some(now), None, None, None, Some(RepoPathNotADirectory))
      else
        var w := t.value;
        var first := First(MergeObstacles(w, targetRef, source, base, a));
        if first.Some? then
          && t' == t
          && r == MergeResult(Skipped, false, Some(now), if a.insideOk && a.headOk then Some(Id(Head(w))) else None, None, None, first)
        else
          && Named(source, a).Some? && t'.Some?
          && t'.value == (if a.run.MergeCommits?
               then Advance(w, Commit([Head(w), Named(source, a).value], a.run.tree, a.run.stamp)) else w)
          && r.attempted && r.attemptedAt == Some(now) && r.preMergeSha == Some(Id(Head(w)))
          && r.postMergeSha == (if a.postHeadOk then Some(Id(Head(t'.value))) else None)
          && r.status == (if a.run.MergeCommits? && a.postHeadOk then Succeeded else Failed)
          && r.mergeResultSha == (if r.status == Succeeded then r.postMergeSha else None)
          && r.error == if r.status == Succeeded then None
                        else if a.run.MergeFails? || !a.postHeadOk then Some(FreeText(a.message)) else Some(MergeMadeNoCommit)
  {
    if t.Some? {
      MergeStopsAtFirst(t.value, targetRef, source, base, a);
      FirstOfEleven(MergeObstacles(t.value, targetRef, source, base, a));
      SucceededMeansMoved(t.value, targetRef, source, base, now, a);
      MergeMovesIff(t.value, targetRef, source, base, now, a);
    }
  }

  // ---- rollback ----

  /** What may stand in the way of a rollback, in the order it is looked for. */
  function RollbackObstacles(w: Checkout, targetRef: string, pre: Rev, post: Rev, a: RevertAnswers): seq<(bool, Reason)> {
    [(!a.insideOk, FreeText(a.message)), (!a.headOk, FreeText(a.message)),
     (targetRef == "", TargetRefRequired), (pre == Text(""), PreMergeShaRequired), (post == Text(""), PostMergeShaRequired),
     (!Resolves(w, targetRef, a.targetOk), FreeText(a.message)),
     (Resolves(w, targetRef, true) && w.refs[NormalizeRef(targetRef)] != Head(w), TargetRefDrift),
     (post != Id(Head(w)), CurrentHeadMismatchPostMerge), (!a.postPresent, FreeText(a.message))]
  }

  lemma RollbackStopsAtFirst(w: Checkout, targetRef: string, pre: Rev, post: Rev, a: RevertAnswers)
    ensures RollbackRefusal(w, targetRef, pre, post, a) == First(RollbackObstacles(w, targetRef, pre, post, a))
  {
    RefMeaning(targetRef);
    FirstOfNine(RollbackObstacles(w, targetRef, pre, post, a));
  }

  /** The whole answer of a rollback, in the same way. */
  lemma RollbackAnswer(t: Option<Checkout>, targetRef: string, pre: Rev, post: Rev, now: string, a: RevertAnswers)
    ensures var (t', r) := ConstrainedRollback(t, targetRef, pre, post, now, a);
      if t.None? then t' == t && r == RollbackResult(Skipped, false, Some(now), false, None, None, Some(RepoPathNotADirectory))
      else
        var w := t.value;
        var first := First(RollbackObstacles(w, targetRef, pre, post, a));
        if first.Some? then
          && t' == t
          && r == RollbackResult(Skipped, false, Some(now), false, if a.insideOk && a.headOk then Some(Id(Head(w))) else None, None, first)
        else
          var undoes := a.run.RevertRuns? && Head(w).parents != [] && Head(w).tree != Head(w).parents[0].tree;
          && t' == Some(if undoes then Advance(w, Commit([Head(w)], Head(w).parents[0].tree, a.run.stamp)) else w)
          && r.attempted && r.attemptedAt == Some(now) && r.consistent && r.currentHeadSha == Some(Id(Head(w)))
          && r.rollbackResultSha == (if a.postHeadOk then Some(Id(Head(t'.value))) else None)
          && r.status == (if undoes && a.postHeadOk then Succeeded else Failed)
          && r.error == if r.status == Succeeded then None else Some(FreeText(a.message))
  {
    if t.Some? {
      var w := t.value;
      RollbackStopsAtFirst(w, targetRef, pre, post, a);
      FirstOfNine(RollbackObstacles(w, targetRef, pre, post, a));
      RollbackRestoresFirstParent(w, targetRef, pre, post, now, a);
      RollbackMovesIff(w, targetRef, pre, post, now, a);
      if Head(w).parents != [] { UndoOnTop(Head(w).tree, Head(w).parents[0].tree); }
    }
  }

  // ---- unfolding First ----

  /** Unfolds `First` k times. */
  lemma {:induction false} Skip(o: seq<(bool, Reason)>, k: nat)
    requires k <= |o|
    ensures (forall i :: 0 <= i < k ==> !o[i].0) ==> First(o) == First(o[k..])
    ensures forall i :: 0 <= i < k && o[i].0 && (forall j :: 0 <= j < i ==> !o[j].0) ==> First(o) == Some(o[i].1)
    decreases k
  {
    if k == 0 {
      assert o[0..] == o;
    } else {
      Skip(o[1..], k - 1);
      assert o[1..][k - 1..] == o[k..];
      forall i | 0 <= i < k && o[i].0 && (forall j :: 0 <= j < i ==> !o[j].0) ensures First(o) == Some(o[i].1) {
        if i > 0 { assert o[1..][i - 1] == o[i]; }
      }
    }
  }

  lemma FirstOfFive(o: seq<(bool, Reason)>)
    requires |o| >= 5
    ensures First(o) == if o[0].0 then Some(o[0].1) else if o[1].0 then Some(o[1].1) else if o[2].0 then Some(o[2].1)
      else if o[3].0 then Some(o[3].1) else if o[4].0 then Some(o[4].1) else First(o[5..])
  {
    Skip(o, 5);
  }

  lemma FirstOfNine(o: seq<(bool, Reason)>)
    requires |o| == 9
    ensures First(o) == if o[0].0 then Some(o[0].1) else if o[1].0 then Some(o[1].1) else if o[2].0 then Some(o[2].1)
      else if o[3].0 then Some(o[3].1) else if o[4].0 then Some(o[4].1) else if o[5].0 then Some(o[5].1) else if o[6].0 then Some(o[6].1)
      else if o[7].0 then Some(o[7].1) else if o[8].0 then Some(o[8].1) else None
  {
    var rest := o[5..];
    FirstOfFive(o);
    Skip(rest, 4);
    assert rest[0] == o[5] && rest[1] == o[6] && rest[2] == o[7] && rest[3] == o[8];
  }

  lemma FirstOfEleven(o: seq<(bool, Reason)>)
    requires |o| == 11
    ensures First(o) == if o[0].0 then Some(o[0].1) else if o[1].0 then Some(o[1].1) else if o[2].0 then Some(o[2].1)
      else if o[3].0 then Some(o[3].1) else if o[4].0 then Some(o[4].1) else if o[5].0 then Some(o[5].1) else if o[6].0 then Some(o[6].1)
      else if o[7].0 then Some(o[7].1) else if o[8].0 then Some(o[8].1)
      else if o[9].0 then Some(o[9].1) else if o[10].0 then Some(o[10].1) else None
  {
    var rest, last := o[5..], o[10..];
    FirstOfFive(o);
    FirstOfFive(rest);
    Skip(last, 1);
    assert rest[0] == o[5] && rest[1] == o[6] && rest[2] == o[7] && rest[3] == o[8] && rest[4] == o[9];
    assert rest[5..] == last && last[0] == o[10];
  }
}
