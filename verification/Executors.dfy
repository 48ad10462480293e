/** The mutable checkout that both executors work on, and the git commands that change it.
    Whatever git may answer is a parameter: any command may fail, a merge may produce any tree. */
module GitCommands {
  import opened Options
  import opened Git

  datatype MergeRun = MergeFails | MergeUpToDate | MergeCommits(tree: Tree, stamp: nat)
  datatype RevertRun = RevertFails | RevertRuns(stamp: nat)

  /** `git merge --no-ff`; a failed merge leaves HEAD where it was. */
  function MergeCommand(w: Checkout, source: Commit, run: MergeRun): (Checkout, bool) {
    match run
    case MergeFails => (w, false)
    case MergeUpToDate => (w, true)
    case MergeCommits(tree, stamp) => (Advance(w, Commit([Head(w), source], tree, stamp)), true)
  }

  /** `git revert -m 1 c`: three-way merge with base c, ours HEAD, theirs c's first parent. A
      conflict, a missing first parent or an empty result fails and leaves HEAD where it was. */
  function RevertCommand(w: Checkout, c: Commit, run: RevertRun): (Checkout, bool) {
    if run.RevertFails? || c.parents == [] then (w, false)
    else
      var undone := ThreeWay(c.tree, Head(w).tree, c.parents[0].tree);
      if undone.None? || undone.value == Head(w).tree then (w, false)
      else (Advance(w, Commit([Head(w)], undone.value, run.stamp)), true)
  }

  class GitWorkTree {
    const branch: string
    var refs: map<string, Commit>

    predicate Valid() reads this { branch in refs }

    function Value(): Checkout
      requires Valid()
      reads this
    {
      WorkTree(branch, refs)
    }

    constructor (w: Checkout)
      ensures Valid() && Value() == w
    {
      branch, refs := w.branch, w.refs;
    }

    method Merge(source: Commit, run: MergeRun) returns (ok: bool)
      requires Valid()
      modifies this`refs
      ensures Valid() && (Value(), ok) == MergeCommand(old(Value()), source, run)
    {
      ok := !run.MergeFails?;
      if run.MergeCommits? {
        refs := refs[branch := Commit([refs[branch], source], run.tree, run.stamp)];
      }
    }

    method Revert(c: Commit, run: RevertRun) returns (ok: bool)
      requires Valid()
      modifies this`refs
      ensures Valid() && (Value(), ok) == RevertCommand(old(Value()), c, run)
    {
      if run.RevertFails? || c.parents == [] { return false; }
      var undone := ThreeWay(c.tree, refs[branch].tree, c.parents[0].tree);
      if undone.None? || undone.value == refs[branch].tree { return false; }
      refs := refs[branch := Commit([refs[branch]], undone.value, run.stamp)];
      return true;
    }
  }

  /** A null object is a repo path that is not a directory. */
  ghost predicate Usable(t: GitWorkTree?) reads t { t != null ==> t.Valid() }

  ghost function ValueOf(t: GitWorkTree?): Option<Checkout>
    requires Usable(t)
    reads t
  {
    if t == null then None else Some(t.Value())
  }
}

/** orchestrator/merge_executor.py */
module MergeExecutor {
  import opened Options
  import opened Git
  import opened Outcomes
  import opened GitCommands

  /** Git's answers during one attempt. `named` is what a source that is not a full id resolves to. */
  datatype MergeAnswers = MergeAnswers(
    insideOk: bool, headOk: bool, targetOk: bool, sourcePresent: bool, named: Option<Commit>,
    ancestryOk: bool, run: MergeRun, postHeadOk: bool, message: string)

  datatype MergeResult = MergeResult(
    status: Status, attempted: bool, attemptedAt: Option<string>,
    preMergeSha: Option<Rev>, postMergeSha: Option<Rev>, mergeResultSha: Option<Rev>, error: Option<Reason>)

  function ResolveSource(source: Rev, a: MergeAnswers): Option<Commit> {
    match source
    case Id(c) => if a.sourcePresent then Some(c) else None
    case Text(_) => a.named
  }

  /** The first guard that refuses, in the order of the code; None lets git merge run. */
  function MergeRefusal(w: Checkout, targetRef: string, source: Rev, base: Rev, a: MergeAnswers): Option<Reason> {
    var target := NormalizeRef(targetRef);
    var commit := ResolveSource(source, a);
    if !a.insideOk || !a.headOk then Some(FreeText(a.message))
    else if target == "" then Some(TargetRefRequired)
    else if source.Blank() then Some(SourceShaRequired)
    else if base.Blank() then Some(BaseShaRequired)
    else if !a.targetOk || target !in w.refs then Some(FreeText(a.message))
    else if w.refs[target] != Head(w) then Some(TargetRefDrift)
    else if base != Id(Head(w)) then Some(BaseShaMismatch)
    else if commit.None? then Some(FreeText(a.message))
    else if !a.ancestryOk then Some(FreeText(a.message))
    else if Ancestor(commit.value, Head(w)) then Some(SourceAlreadyMerged)
    else None
  }

  function ConstrainedMerge(t: Option<Checkout>, targetRef: string, source: Rev, base: Rev, now: string, a: MergeAnswers)
    : (Option<Checkout>, MergeResult)
  {
    var idle := MergeResult(Skipped, false, Some(now), None, None, None, None);
    if t.None? then (t, idle.(error := Some(RepoPathNotADirectory)))
    else
      var pre := if a.insideOk && a.headOk then Some(Id(Head(t.value))) else None;
      var refusal := MergeRefusal(t.value, targetRef, source, base, a);
      if refusal.Some? then (t, idle.(preMergeSha := pre, error := refusal))
      else
        var (w, ok) := MergeCommand(t.value, ResolveSource(source, a).value, a.run);
        var post := if a.postHeadOk then Some(Id(Head(w))) else None;
        var ran := idle.(attempted := true, preMergeSha := pre, postMergeSha := post);
        (Some(w),
         if !ok || post.None? then ran.(status := Failed, error := Some(FreeText(a.message)))
         else if post == pre then ran.(status := Failed, error := Some(MergeMadeNoCommit))
         else ran.(status := Succeeded, mergeResultSha := post))
  }

  method ExecuteConstrainedMerge(tree: GitWorkTree?, targetRef: string, source: Rev, base: Rev, now: string, a: MergeAnswers)
    returns (result: MergeResult)
    requires Usable(tree)
    modifies tree
    ensures Usable(tree)
    ensures (ValueOf(tree), result) == ConstrainedMerge(old(ValueOf(tree)), targetRef, source, base, now, a)
  {
    result := MergeResult(Skipped, false, Some(now), None, None, None, None);
    if tree == null { return result.(error := Some(RepoPathNotADirectory)); }
    var target := NormalizeRef(targetRef);
    var said := Some(FreeText(a.message));
    if !a.insideOk { return result.(error := said); }
    if !a.headOk { return result.(error := said); }
    var head := tree.refs[tree.branch];
    result := result.(preMergeSha := Some(Id(head)));
    if target == "" { return result.(error := Some(TargetRefRequired)); }
    if source.Blank() { return result.(error := Some(SourceShaRequired)); }
    if base.Blank() { return result.(error := Some(BaseShaRequired)); }
    if !a.targetOk || target !in tree.refs { return result.(error := said); }
    if tree.refs[target] != head { return result.(error := Some(TargetRefDrift)); }
    if base != Id(head) { return result.(error := Some(BaseShaMismatch)); }
    var commit := ResolveSource(source, a);
    if commit.None? { return result.(error := said); }
    if !a.ancestryOk { return result.(error := said); }
    if Ancestor(commit.value, head) { return result.(error := Some(SourceAlreadyMerged)); }

    var ok := tree.Merge(commit.value, a.run);
    result := result.(attempted := true);
    var post := tree.refs[tree.branch];
    if !ok {
      result := result.(status := Failed, error := said);
      if a.postHeadOk { result := result.(postMergeSha := Some(Id(post))); }
      return;
    }
    if !a.postHeadOk { return result.(status := Failed, error := said); }
    result := result.(postMergeSha := Some(Id(post)));
    if post == head { return result.(status := Failed, error := Some(MergeMadeNoCommit)); }
    result := result.(status := Succeeded, mergeResultSha := Some(Id(post)));
  }

  /** HEAD moves only by one real merge commit on top of `base`: two parents, the first being the
      commit HEAD was at and `base_sha` named, the second a commit that was not yet merged. */
  lemma MergeMovesHeadExactly(w: Checkout, targetRef: string, source: Rev, base: Rev, now: string, a: MergeAnswers)
    ensures var (t, r) := ConstrainedMerge(Some(w), targetRef, source, base, now, a);
      && t.Some?
      && (Head(t.value) == Head(w) ==> t.value == w)
      && (Head(t.value) != Head(w) ==>
           && base == Id(Head(w))
           && NormalizeRef(targetRef) in w.refs && w.refs[NormalizeRef(targetRef)] == Head(w)
           && |Head(t.value).parents| == 2 && Head(t.value).parents[0] == Head(w)
           && !Ancestor(Head(t.value).parents[1], Head(w))
           && r.preMergeSha == Some(base) && r.attempted)
  {
  }

  /** HEAD moves exactly when no guard refuses and git commits. */
  lemma MergeMovesIff(w: Checkout, targetRef: string, source: Rev, base: Rev, now: string, a: MergeAnswers)
    ensures var t := ConstrainedMerge(Some(w), targetRef, source, base, now, a).0;
      t.Some? && (Head(t.value) != Head(w) <==> MergeRefusal(w, targetRef, source, base, a).None? && a.run.MergeCommits?)
  {
    var t := ConstrainedMerge(Some(w), targetRef, source, base, now, a).0;
    if MergeRefusal(w, targetRef, source, base, a).None? && a.run.MergeCommits? {
      assert Head(w) in Head(t.value).parents;
      assert Height(Head(w)) < Height(Head(t.value));
    }
  }

  /** The report is truthful: `succeeded` exactly when HEAD moved and could be read again. */
  lemma SucceededMeansMoved(w: Checkout, targetRef: string, source: Rev, base: Rev, now: string, a: MergeAnswers)
    ensures var (t, r) := ConstrainedMerge(Some(w), targetRef, source, base, now, a);
      && t.Some?
      && (r.status == Succeeded <==> Head(t.value) != Head(w) && a.postHeadOk)
      && (r.status == Succeeded ==> r.postMergeSha == r.mergeResultSha == Some(Id(Head(t.value))) && r.error == None)
      && (r.status == Skipped <==> !r.attempted) && r.status != Attempted
  {
    MergeMovesHeadExactly(w, targetRef, source, base, now, a);
    var t := ConstrainedMerge(Some(w), targetRef, source, base, now, a).0;
    if MergeRefusal(w, targetRef, source, base, a).None? && a.run.MergeCommits? {
      assert Head(t.value).parents[0] == Head(w);
      assert Head(w) in Head(t.value).parents;
      assert Height(Head(w)) < Height(Head(t.value));
    }
  }

  /** The guards compare commit ids only: the new commit lands on the checked-out branch, and it
      reaches `target_ref` exactly when that is the branch HEAD is attached to. */
  lemma MergeReachesTargetIffAttached(w: Checkout, targetRef: string, source: Rev, base: Rev, now: string, a: MergeAnswers)
    requires ConstrainedMerge(Some(w), targetRef, source, base, now, a).1.status == Succeeded
    ensures var t := ConstrainedMerge(Some(w), targetRef, source, base, now, a).0.value;
      && NormalizeRef(targetRef) in t.refs
      && (t.refs[NormalizeRef(targetRef)] == Head(t) <==> NormalizeRef(targetRef) == w.branch)
  {
    SucceededMeansMoved(w, targetRef, source, base, now, a);
    MergeMovesHeadExactly(w, targetRef, source, base, now, a);
  }
}

/** orchestrator/rollback_executor.py */
module RollbackExecutor {
  import opened Options
  import opened Git
  import opened Outcomes
  import opened GitCommands

  datatype RevertAnswers = RevertAnswers(
    insideOk: bool, headOk: bool, targetOk: bool, postPresent: bool, run: RevertRun, postHeadOk: bool, message: string)

  datatype RollbackResult = RollbackResult(
    status: Status, attempted: bool, attemptedAt: Option<string>, consistent: bool,
    currentHeadSha: Option<Rev>, rollbackResultSha: Option<Rev>, error: Option<Reason>)

  function RollbackRefusal(w: Checkout, targetRef: string, pre: Rev, post: Rev, a: RevertAnswers): Option<Reason> {
    var target := NormalizeRef(targetRef);
    if !a.insideOk || !a.headOk then Some(FreeText(a.message))
    else if target == "" then Some(TargetRefRequired)
    else if pre.Blank() then Some(PreMergeShaRequired)
    else if post.Blank() then Some(PostMergeShaRequired)
    else if !a.targetOk || target !in w.refs then Some(FreeText(a.message))
    else if w.refs[target] != Head(w) then Some(TargetRefDrift)
    else if post != Id(Head(w)) then Some(CurrentHeadMismatchPostMerge)
    else if !a.postPresent then Some(FreeText(a.message))
    else None
  }

  function ConstrainedRollback(t: Option<Checkout>, targetRef: string, pre: Rev, post: Rev, now: string, a: RevertAnswers)
    : (Option<Checkout>, RollbackResult)
  {
    var idle := RollbackResult(Skipped, false, Some(now), false, None, None, None);
    if t.None? then (t, idle.(error := Some(RepoPathNotADirectory)))
    else
      var head := if a.insideOk && a.headOk then Some(Id(Head(t.value))) else None;
      var refusal := RollbackRefusal(t.value, targetRef, pre, post, a);
      if refusal.Some? then (t, idle.(currentHeadSha := head, error := refusal))
      else
        var (w, ok) := RevertCommand(t.value, post.commit, a.run);
        var after := if a.postHeadOk then Some(Id(Head(w))) else None;
        var ran := idle.(attempted := true, consistent := true, currentHeadSha := head, rollbackResultSha := after);
        (Some(w),
         if !ok || after.None? then ran.(status := Failed, error := Some(FreeText(a.message)))
         else if after == head then ran.(status := Failed, error := Some(RollbackMadeNoCommit))
         else ran.(status := Succeeded))
  }

  method ExecuteConstrainedRollback(tree: GitWorkTree?, targetRef: string, pre: Rev, post: Rev, now: string, a: RevertAnswers)
    returns (result: RollbackResult)
    requires Usable(tree)
    modifies tree
    ensures Usable(tree)
    ensures (ValueOf(tree), result) == ConstrainedRollback(old(ValueOf(tree)), targetRef, pre, post, now, a)
  {
    result := RollbackResult(Skipped, false, Some(now), false, None, None, None);
    if tree == null { return result.(error := Some(RepoPathNotADirectory)); }
    var target := NormalizeRef(targetRef);
    var said := Some(FreeText(a.message));
    if !a.insideOk { return result.(error := said); }
    if !a.headOk { return result.(error := said); }
    var head := tree.refs[tree.branch];
    result := result.(currentHeadSha := Some(Id(head)));
    if target == "" { return result.(error := Some(TargetRefRequired)); }
    if pre.Blank() { return result.(error := Some(PreMergeShaRequired)); }
    if post.Blank() { return result.(error := Some(PostMergeShaRequired)); }
    if !a.targetOk || target !in tree.refs { return result.(error := said); }
    if tree.refs[target] != head { return result.(error := Some(TargetRefDrift)); }
    if post != Id(head) { return result.(error := Some(CurrentHeadMismatchPostMerge)); }
    if !a.postPresent { return result.(error := said); }
    result := result.(consistent := true);

    var ok := tree.Revert(post.commit, a.run);
    result := result.(attempted := true);
    var after := tree.refs[tree.branch];
    if !ok {
      result := result.(status := Failed, error := said);
      if a.postHeadOk { result := result.(rollbackResultSha := Some(Id(after))); }
      return;
    }
    if !a.postHeadOk { return result.(status := Failed, error := said); }
    result := result.(rollbackResultSha := Some(Id(after)));
    if after == head { return result.(status := Failed, error := Some(RollbackMadeNoCommit)); }
    result := result.(status := Succeeded);
  }

  /** HEAD moves only from the named merge commit to a child of it that carries exactly the tree
      of the first parent: a revert that runs at all is an exact undo. */
  lemma RollbackRestoresFirstParent(w: Checkout, targetRef: string, pre: Rev, post: Rev, now: string, a: RevertAnswers)
    ensures var (t, r) := ConstrainedRollback(Some(w), targetRef, pre, post, now, a);
      && t.Some?
      && (Head(t.value) == Head(w) ==> t.value == w)
      && (Head(t.value) != Head(w) ==>
           && post == Id(Head(w)) && r.attempted
           && Head(w).parents != []
           && Head(t.value).parents == [Head(w)]
           && Head(t.value).tree == Head(w).parents[0].tree)
      && (r.status == Succeeded <==> Head(t.value) != Head(w) && a.postHeadOk)
      && (r.status == Succeeded ==> r.rollbackResultSha == Some(Id(Head(t.value))))
      && r.status != Attempted
  {
    if Head(w).parents != [] {
      UndoOnTop(Head(w).tree, Head(w).parents[0].tree);
    }
    var t := ConstrainedRollback(Some(w), targetRef, pre, post, now, a).0;
    if RollbackRefusal(w, targetRef, pre, post, a).None? && RevertCommand(w, post.commit, a.run).1 {
      assert Head(t.value).parents == [Head(w)];
      assert Head(w) in Head(t.value).parents;
      assert Height(Head(w)) < Height(Head(t.value));
    }
  }

  /** HEAD moves exactly when no guard refuses, git runs the revert, and the named commit changed its first parent's tree. */
  lemma RollbackMovesIff(w: Checkout, targetRef: string, pre: Rev, post: Rev, now: string, a: RevertAnswers)
    ensures var t := ConstrainedRollback(Some(w), targetRef, pre, post, now, a).0;
      t.Some? && (Head(t.value) != Head(w) <==>
        && RollbackRefusal(w, targetRef, pre, post, a).None? && a.run.RevertRuns?
        && Head(w).parents != [] && Head(w).tree != Head(w).parents[0].tree)
  {
    RollbackRestoresFirstParent(w, targetRef, pre, post, now, a);
    var t := ConstrainedRollback(Some(w), targetRef, pre, post, now, a).0;
    if RollbackRefusal(w, targetRef, pre, post, a).None? && Head(w).parents != [] {
      UndoOnTop(Head(w).tree, Head(w).parents[0].tree);
      if RevertCommand(w, post.commit, a.run).1 {
        assert Head(w) in Head(t.value).parents;
        assert Height(Head(w)) < Height(Head(t.value));
      }
    }
  }

  /** With git healthy, a rollback of the checked-out merge succeeds exactly when the merge changed the tree. */
  lemma RollbackSucceedsExactly(w: Checkout, targetRef: string, pre: Rev, post: Rev, now: string, a: RevertAnswers)
    requires a.insideOk && a.headOk && a.targetOk && a.postPresent && a.postHeadOk && a.run.RevertRuns?
    requires targetRef != "" && !pre.Blank()
    ensures ConstrainedRollback(Some(w), targetRef, pre, post, now, a).1.status == Succeeded <==>
      && NormalizeRef(targetRef) in w.refs && w.refs[NormalizeRef(targetRef)] == Head(w)
      && post == Id(Head(w)) && Head(w).parents != []
      && Head(w).tree != Head(w).parents[0].tree
  {
    if Head(w).parents != [] {
      UndoOnTop(Head(w).tree, Head(w).parents[0].tree);
    }
    RollbackRestoresFirstParent(w, targetRef, pre, post, now, a);
  }
}
