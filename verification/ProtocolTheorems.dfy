/** What every run of the merge/rollback protocol guarantees, and where the guarantees end. */
module ProtocolTheorems {
  import opened Options
  import opened Git
  import opened Outcomes
  import opened GitCommands
  import opened Ledger
  import opened MergeExecutor
  import opened RollbackExecutor
  import opened Dispatch
  import opened OperatorDecision
  import opened ProtocolRuns

  /** In one checkout no two merge commits are ever made for the same base, so at most one per
      candidate, whatever the ledger lost or overwrote in between. */
  lemma AtMostOneMergePerCandidate(w: World, i: nat, j: nat)
    requires Reachable(w) && i < j < |w.log|
    requires w.log[i].Merged? && w.log[j].Merged? && w.log[i].path == w.log[j].path
    ensures w.log[i].candidate.baseSha != w.log[j].candidate.baseSha
    ensures w.log[i].candidate != w.log[j].candidate
  {
    ReachableInv(w);
    LaterStartsHigher(w, i, j);
  }

  /** At most one revert commit per trace id in one checkout, through either entry point. */
  lemma AtMostOneRevertPerTrace(w: World, i: nat, j: nat)
    requires Reachable(w) && i < j < |w.log|
    requires w.log[i].Reverted? && w.log[j].Reverted? && w.log[i].path == w.log[j].path
    ensures w.log[i].trace != w.log[j].trace
  {
    ReachableInv(w);
    LaterStartsHigher(w, i, j);
  }

  lemma LaterStartsHigher(w: World, i: nat, j: nat)
    requires Inv(w) && i < j < |w.log| && w.log[i].path == w.log[j].path
    ensures w.log[i].before != w.log[j].before
  {
    assert EffectOk(w.log[i]);
    assert w.log[i].before in w.log[i].after.parents;
    assert Height(w.log[i].before) < Height(w.log[i].after);
    AncestorHeight(w.log[i].after, w.log[j].before);
  }

  /** `merge` is a real merge commit made on `base`, and `pre`, `post` name exactly these two. */
  ghost predicate NamesMerge(k: CandidateKey, pre: Option<Rev>, post: Option<Rev>, base: Commit, merge: Commit) {
    && k.baseSha == Id(base) && pre == Some(Id(base)) && post == Some(Id(merge))
    && |merge.parents| == 2 && merge.parents[0] == base
  }

  lemma HappenedNamesMerge(w: World, k: CandidateKey, pre: Option<Rev>, post: Option<Rev>) returns (base: Commit, merge: Commit)
    requires Inv(w) && MergeHappened(w.log, k, pre, post)
    ensures NamesMerge(k, pre, post, base, merge)
  {
    var i :| 0 <= i < |w.log| && w.log[i].Merged? && w.log[i].candidate == k
          && pre == Some(Id(w.log[i].before)) && post == Some(Id(w.log[i].after));
    assert EffectOk(w.log[i]);
    base, merge := w.log[i].before, w.log[i].after;
  }

  /** Every eligible trace names a merge that an executor really made: first parent `pre_merge_sha`,
      which is the candidate's `base_sha`. */
  lemma EligibleTraceNamesRealMerge(w: World, k: CandidateKey)
    requires Reachable(w) && k in w.tables.traces && w.tables.traces[k].eligible
    ensures var t := w.tables.traces[k];
      && t.identity.baseSha == k.baseSha && MergeHappened(w.log, k, t.pre, t.post)
      && exists base, merge :: NamesMerge(k, t.pre, t.post, base, merge)
  {
    ReachableInv(w);
    assert TraceOk(w.tables, k, w.tables.traces[k]);
    var base, merge := HappenedNamesMerge(w, k, w.tables.traces[k].pre, w.tables.traces[k].post);
  }

  /** HEAD is a child of the named merge and carries the tree of its `pre_merge_sha`. */
  ghost predicate RestoredTo(t: Option<Checkout>, id: TraceId) {
    exists base, merge :: NamesMerge(id.candidate, Some(id.pre), Some(id.post), base, merge)
      && t.Some? && Head(t.value).parents == [merge] && Head(t.value).tree == base.tree
  }

  lemma ActingRestores(w: World, path: string, id: TraceId, v: Verdict, now: string, a: RevertAnswers)
    requires Inv(w) && TraceById(w.tables, id).Some?
    requires v == Proceed ==> TraceById(w.tables, id).value.eligible
    requires AttemptRollback(TreeAt(w, path), TraceById(w.tables, id).value, v, now, a).1.status == Succeeded
    ensures RestoredTo(AttemptRollback(TreeAt(w, path), TraceById(w.tables, id).value, v, now, a).0, id)
  {
    var trace := TraceById(w.tables, id).value;
    assert TraceOk(w.tables, id.candidate, trace);
    var t := TreeAt(w, path).value;
    RollbackRestoresFirstParent(t, trace.identity.targetRef, ColumnText(trace.pre), ColumnText(trace.post), now, a);
    var base, merge := HappenedNamesMerge(w, id.candidate, trace.pre, trace.post);
  }

  /** A dispatch that reports a succeeded rollback has put the pre-merge tree back. */
  lemma CliRollbackIsExact(w: World, path: string, q: Request, io: Io)
    requires Reachable(w)
    requires var r := DispatchRun(w.tables, TreeAt(w, path), q, io).report.rollback;
      r.Some? && r.value.outcome.status == Succeeded
    ensures q.rollbackTraceId.Some?
    ensures RestoredTo(DispatchRun(w.tables, TreeAt(w, path), q, io).tree, q.rollbackTraceId.value)
  {
    ReachableInv(w);
    var s0 := RecordPhase(w.tables, TreeAt(w, path), q, io);
    RecordKeeps(w, q, io, TreeAt(w, path));
    var w0 := w.(tables := s0.tables);
    MergeKeeps(w0, path, q, io);
    AfterMergeIsPhase(w0, path, s0.report, q, io);
    var s1 := MergePhase(s0, q, io);
    var w1 := AfterMerge(w0, path, q, io);
    FollowUpKeeps(w1, s1.report.merge, s1.report.written, q, io);
    var w2 := w1.(tables := FollowUpPhase(s1, q, io).tables);
    var id := q.rollbackTraceId.value;
    var trace := TraceById(w2.tables, id).value;
    var v := CliVerdict(trace, q.identity.repo, Lookup(w2.tables.rollbacks, id, io.priorRollbackReads));
    ActingRestores(w2, path, id, v, io.now, io.revert);
  }

  /** A decision that reports a succeeded rollback acted on the trace it resolved. */
  lemma DecisionActed(l: Tables, t: Option<Checkout>, sel: Selector, d: Decision, io: OperatorIo)
    requires var r := OperatorRun(l, t, sel, d, io).outcome.rollback;
      r.Some? && r.value.status == Succeeded
    ensures d.Rollback? && ResolveTrace(l, sel, io).Some?
    ensures var trace := ResolveTrace(l, sel, io).value;
      var v := OperatorVerdict(trace, Lookup(l.rollbacks, trace.id, io.priorReads));
      && TraceById(l, trace.id) == Some(trace)
      && (OperatorRun(l, t, sel, d, io).tree, OperatorRun(l, t, sel, d, io).outcome.rollback.value)
         == AttemptRollback(t, trace, v, io.now, io.revert)
  {
  }

  /** So has an operator decision that reports one. */
  lemma OperatorRollbackIsExact(w: World, path: string, sel: Selector, d: Decision, io: OperatorIo)
    requires Reachable(w)
    requires var r := OperatorRun(w.tables, TreeAt(w, path), sel, d, io).outcome.rollback;
      r.Some? && r.value.status == Succeeded
    ensures ResolveTrace(w.tables, sel, io).Some?
    ensures RestoredTo(OperatorRun(w.tables, TreeAt(w, path), sel, d, io).tree, ResolveTrace(w.tables, sel, io).value.id)
  {
    ReachableInv(w);
    DecisionActed(w.tables, TreeAt(w, path), sel, d, io);
    var trace := ResolveTrace(w.tables, sel, io).value;
    var v := OperatorVerdict(trace, Lookup(w.tables.rollbacks, trace.id, io.priorReads));
    ActingRestores(w, path, trace.id, v, io.now, io.revert);
  }

  /** Rows that say succeeded are backed by a commit that git made. */
  lemma SucceededRowsAreTrue(w: World)
    requires Reachable(w)
    ensures Linked(w.tables)
    ensures forall k :: k in w.tables.merges && w.tables.merges[k].status == Succeeded ==>
              MergeHappened(w.log, k, w.tables.merges[k].pre, w.tables.merges[k].post)
    ensures forall id :: id in w.tables.rollbacks && w.tables.rollbacks[id].status == Succeeded ==> RevertHappened(w.log, id)
  {
    ReachableInv(w);
  }

  /** The log is complete: a step of the program that adds no effect leaves every checkout alone. */
  lemma NoSilentMoves(w: World, e: Event)
    requires !e.Outside?
    ensures w.log <= Step(w, e).log
    ensures |Step(w, e).log| == |w.log| ==> Step(w, e).trees == w.trees
  {
    match e
    case DispatchAt(path, q, io) =>
      var recorded := RecordPhase(w.tables, TreeAt(w, path), q, io);
      var w0 := w.(tables := recorded.tables);
      MergeIsLogged(w0, path, q, io);
      var w1 := AfterMerge(w0, path, q, io);
      var report := MergePhase(recorded, q, io).report;
      var w2 := w1.(tables := ReceiptAndTrace(w1.tables, report.merge, report.written, q, io).tables);
      RollbackIsLogged(w2, path, q, io);
    case OperatorAt(path, sel, d, io) => DecisionIsLogged(w, path, sel, d, io);
  }

  lemma MergeIsLogged(w: World, path: string, q: Request, io: Io)
    ensures w.log <= AfterMerge(w, path, q, io).log
    ensures |AfterMerge(w, path, q, io).log| == |w.log| ==> AfterMerge(w, path, q, io).trees == w.trees
  {
    if path in w.trees {
      MergeMovesHeadExactly(w.trees[path], q.identity.targetRef, q.identity.sourceSha, q.identity.baseSha, io.now, io.merge);
    }
  }

  lemma ActingOnlyMovesHead(w: Checkout, trace: Trace, v: Verdict, now: string, a: RevertAnswers)
    ensures var t := AttemptRollback(Some(w), trace, v, now, a).0; t.Some? && (Head(t.value) == Head(w) ==> t.value == w)
  {
    RollbackRestoresFirstParent(w, trace.identity.targetRef, ColumnText(trace.pre), ColumnText(trace.post), now, a);
  }

  lemma RollbackIsLogged(w: World, path: string, q: Request, io: Io)
    ensures w.log <= AfterRollback(w, path, q, io).log
    ensures |AfterRollback(w, path, q, io).log| == |w.log| ==> AfterRollback(w, path, q, io).trees == w.trees
  {
    if q.executeRollback && path in w.trees && q.rollbackTraceId.Some? && TraceById(w.tables, q.rollbackTraceId.value).Some? {
      var trace := TraceById(w.tables, q.rollbackTraceId.value).value;
      var v := CliVerdict(trace, q.identity.repo, Lookup(w.tables.rollbacks, q.rollbackTraceId.value, io.priorRollbackReads));
      ActingOnlyMovesHead(w.trees[path], trace, v, io.now, io.revert);
    }
  }

  lemma DecisionIsLogged(w: World, path: string, sel: Selector, d: Decision, io: OperatorIo)
    ensures w.log <= AfterDecision(w, path, sel, d, io).log
    ensures |AfterDecision(w, path, sel, d, io).log| == |w.log| ==> AfterDecision(w, path, sel, d, io).trees == w.trees
  {
    var trace := ResolveTrace(w.tables, sel, io);
    if path in w.trees && trace.Some? {
      var v := OperatorVerdict(trace.value, Lookup(w.tables.rollbacks, trace.value.id, io.priorReads));
      ActingOnlyMovesHead(w.trees[path], trace.value, v, io.now, io.revert);
    }
  }

  // ---- a duplicate dispatch and the ledger ----

  predicate AllWell(io: Io) {
    io.jobWrites && io.targetWrites && io.targetReads && io.priorReads && io.mergeWrites && io.receiptWrites && io.traceWrites
  }

  /** With a healthy ledger, dispatching a merged candidate again touches no checkout, but it overwrites the
      `succeeded` row with `skipped` and the trace with an ineligible one under the same id: after that both
      ways to roll back refuse. EligibilitySurvivesIff below covers every other case. */
  lemma DuplicateErasesEligibility(l: Tables, t: Option<Checkout>, q: Request, io: Io)
    requires q.identity.Complete() && q.executeMerge && !q.executeRollback && AllWell(io)
    requires Linked(l) && q.identity in l.merges && l.merges[q.identity].status == Succeeded
    ensures var s := DispatchRun(l, t, q, io);
      var k := q.identity;
      && s.tree == t
      && k in s.tables.merges && s.tables.merges[k].status == Skipped
      && s.tables.merges[k].pre == l.merges[k].pre && s.tables.merges[k].post == l.merges[k].post
      && k in s.tables.traces && s.tables.traces[k].id == TraceIdOf(k, l.merges[k].pre, l.merges[k].post)
      && !s.tables.traces[k].eligible
      && (forall repo, prior :: CliVerdict(s.tables.traces[k], repo, prior) != Proceed)
      && (forall prior :: OperatorVerdict(s.tables.traces[k], prior) != Proceed)
  {
    var s0 := RecordPhase(l, t, q, io);
    assert s0.tables.targets[q.identity].identity == q.identity && s0.tables.merges == l.merges;
    SecondMergeIsSkipped(s0.tables, t, q, io);
    var m := DoMerge(s0.tables, t, q, io);
    SkippedRowGivesIneligibleTrace(m.tables, m.payload, MergePhase(s0, q, io).report.written, q, io);
  }

  /** A duplicate moves no checkout and makes no commit, whatever else fails, as long as the prior row can be read. */
  lemma DuplicateMovesNothing(w: World, path: string, q: Request, io: Io)
    requires !q.executeRollback && io.priorReads
    requires q.identity in w.tables.merges && w.tables.merges[q.identity].status == Succeeded
    ensures var w' := Step(w, DispatchAt(path, q, io)); w'.log == w.log && w'.trees == w.trees
  {
    var s0 := RecordPhase(w.tables, TreeAt(w, path), q, io);
    var w0 := w.(tables := s0.tables);
    MergeLogsIff(w0, path, q, io);
    MergeIsLogged(w0, path, q, io);
    assert AfterMerge(w0, path, q, io).log == w.log;
  }

  /** The merge step of a dispatch makes a commit exactly when the target is on record, no succeeded row can be read,
      no guard refuses and git commits; then it logs that one merge, and it never logs anything else. */
  lemma MergeLogsIff(w: World, path: string, q: Request, io: Io)
    ensures var w' := AfterMerge(w, path, q, io);
      var prior := Lookup(w.tables.merges, q.identity, io.priorReads);
      if q.executeMerge && path in w.trees && MergeStop(w.tables, q, io).None?
         && !(prior.Some? && prior.value.status == Succeeded)
         && MergeRefusal(w.trees[path], q.identity.targetRef, q.identity.sourceSha, q.identity.baseSha, io.merge).None?
         && io.merge.run.MergeCommits?
      then path in w'.trees && w'.log == w.log + [Merged(path, q.identity, Head(w.trees[path]), Head(w'.trees[path]))]
      else w'.log == w.log
  {
    if path in w.trees {
      MergeMovesIff(w.trees[path], q.identity.targetRef, q.identity.sourceSha, q.identity.baseSha, io.now, io.merge);
    }
  }

  lemma SecondMergeIsSkipped(l: Tables, t: Option<Checkout>, q: Request, io: Io)
    requires q.identity.Complete() && AllWell(io)
    requires q.identity in l.targets && l.targets[q.identity].identity == q.identity
    requires q.identity in l.merges && l.merges[q.identity].status == Succeeded
    ensures var m := DoMerge(l, t, q, io);
      var row := l.merges[q.identity].(job := q.job, identity := q.identity, status := Skipped, error := Some(AlreadyMergedForCandidate));
      && m.tree == t && m.written && m.payload.candidate == Some(q.identity)
      && m.tables == l.(merges := l.merges[q.identity := row])
  {
  }

  lemma SkippedRowGivesIneligibleTrace(l: Tables, merge: MergePayload, written: Persistence, q: Request, io: Io)
    requires AllWell(io) && written.merge && merge.candidate == Some(q.identity)
    requires q.identity in l.targets && q.identity in l.merges && l.merges[q.identity].status != Succeeded
    ensures var f := ReceiptAndTrace(l, Some(merge), written, q, io);
      && f.tables.merges == l.merges
      && q.identity in f.tables.traces
      && f.tables.traces[q.identity].id == TraceIdOf(q.identity, l.merges[q.identity].pre, l.merges[q.identity].post)
      && !f.tables.traces[q.identity].eligible
  {
    var (l', receipt) := ReceiptWrite(l, Some(merge), q, io);
    ReceiptLeavesRest(l, Some(merge), q, io);
    var step := TraceWrite(l', q.identity, receipt, io);
    assert step.tables == l'.(traces := l'.traces[q.identity :=
      DeriveTrace(q.identity, l'.targets[q.identity], l'.merges[q.identity], receipt, io.recordedAt)]);
  }

  /** The receipt step leaves merge rows, targets and traces alone. */
  lemma ReceiptLeavesRest(l: Tables, merge: Option<MergePayload>, q: Request, io: Io)
    ensures ReceiptWrite(l, merge, q, io).0.merges == l.merges && ReceiptWrite(l, merge, q, io).0.targets == l.targets
    ensures ReceiptWrite(l, merge, q, io).0.traces == l.traces
  {
  }

  // ---- when an eligible trace survives a dispatch ----

  /** The dispatch gets as far as deriving the trace of candidate k again. */
  predicate Rederives(q: Request, io: Io, k: CandidateKey) {
    q.identity == k && q.executeMerge && q.HasIdentity() && k.Complete() && io.targetReads && io.mergeWrites && io.traceWrites
  }

  /** What is on record before the merge step. */
  lemma RecordLeavesRest(l: Tables, t: Option<Checkout>, q: Request, io: Io)
    requires Linked(l)
    ensures var s := RecordPhase(l, t, q, io);
      && s.tables.traces == l.traces && s.tables.merges == l.merges && s.tree == t && s.report.merge.None?
      && l.targets.Keys <= s.tables.targets.Keys
      && forall k :: k in s.tables.targets ==> s.tables.targets[k].identity == k
  {
  }

  lemma MergeRowOnRecord(l: Tables, t: Option<Checkout>, q: Request, io: Io)
    requires q.identity in l.targets && l.targets[q.identity].identity == q.identity
    ensures var m := DoMerge(l, t, q, io);
      && m.tables.traces == l.traces && m.tables.targets == l.targets
      && (m.written && m.payload.candidate.Some? <==> q.HasIdentity() && io.targetReads && io.mergeWrites && q.identity.Complete())
      && (m.payload.candidate.Some? ==> m.payload.candidate.value == q.identity)
      && (m.written ==>
            && q.identity in m.tables.merges
            && m.tables.merges[q.identity] == MergeRowOf(q.job, q.identity, AttemptMerge(l, t, q.identity, io).1))
  {
  }

  /** A row made from an attempt supports a rollback exactly when the attempt succeeded. */
  lemma AttemptSupportsRollback(l: Tables, t: Option<Checkout>, job: string, id: Identity, io: Io)
    ensures var r := AttemptMerge(l, t, id, io).1;
      IneligibleReason(MergeRowOf(job, id, r)).None? <==> r.status == Succeeded
  {
    if t.Some? {
      SucceededMeansMoved(t.value, id.targetRef, id.sourceSha, id.baseSha, io.now, io.merge);
      MergeMovesHeadExactly(t.value, id.targetRef, id.sourceSha, id.baseSha, io.now, io.merge);
    }
  }

  lemma TraceStepTouchesOne(l: Tables, key: CandidateKey, receipt: Option<AttemptKey>, io: Io, k: CandidateKey)
    requires key in l.targets && key in l.merges
    ensures var l' := TraceWrite(l, key, receipt, io).tables;
      if k == key && io.traceWrites then k in l'.traces && (l'.traces[k].eligible <==> IneligibleReason(l.merges[k]).None?)
      else (k in l'.traces <==> k in l.traces) && (k in l.traces ==> l'.traces[k] == l.traces[k])
  {
  }

  lemma FollowUpTrace(s: State, q: Request, io: Io, k: CandidateKey)
    requires var m := s.report.merge;
      m.Some? && m.value.candidate.Some? && s.report.written.merge ==>
        m.value.candidate.value in s.tables.targets && m.value.candidate.value in s.tables.merges
    ensures var l' := FollowUpPhase(s, q, io).tables;
      var m := s.report.merge;
      if m.Some? && m.value.candidate == Some(k) && s.report.written.merge && io.traceWrites
      then k in l'.traces && k in s.tables.merges && (l'.traces[k].eligible <==> IneligibleReason(s.tables.merges[k]).None?)
      else (k in l'.traces <==> k in s.tables.traces) && (k in s.tables.traces ==> l'.traces[k] == s.tables.traces[k])
  {
    var m := s.report.merge;
    var (l, receipt) := ReceiptWrite(s.tables, m, q, io);
    ReceiptLeavesRest(s.tables, m, q, io);
    if m.Some? && m.value.candidate.Some? && s.report.written.merge {
      TraceStepTouchesOne(l, m.value.candidate.value, receipt, io, k);
    }
  }

  lemma RollbackLeavesTraces(s: State, q: Request, io: Io)
    ensures RollbackPhase(s, q, io).tables.traces == s.tables.traces
  {
  }

  /** The trace of a candidate after any dispatch: rederived from the attempt just made, or untouched. */
  lemma TraceAfterDispatch(l: Tables, t: Option<Checkout>, q: Request, io: Io, k: CandidateKey)
    requires Linked(l) && k in l.traces
    ensures var l' := DispatchRun(l, t, q, io).tables;
      && k in l'.traces
      && (if Rederives(q, io, k)
          then l'.traces[k].eligible <==> AttemptMerge(RecordPhase(l, t, q, io).tables, t, k, io).1.status == Succeeded
          else l'.traces[k] == l.traces[k])
  {
    assert TraceOk(l, k, l.traces[k]);
    RecordLeavesRest(l, t, q, io);
    var s0 := RecordPhase(l, t, q, io);
    var s1 := MergePhase(s0, q, io);
    MergeStepTrace(s0, q, io, k);
    FollowUpTrace(s1, q, io, k);
    RollbackLeavesTraces(FollowUpPhase(s1, q, io), q, io);
  }

  lemma MergeStepTrace(s: State, q: Request, io: Io, k: CandidateKey)
    requires s.report.merge.None? && k in s.tables.targets
    requires forall j :: j in s.tables.targets ==> s.tables.targets[j].identity == j
    ensures var s1 := MergePhase(s, q, io);
      var m := s1.report.merge;
      && s1.tables.traces == s.tables.traces
      && (m.Some? && m.value.candidate.Some? && s1.report.written.merge ==>
            m.value.candidate.value in s1.tables.targets && m.value.candidate.value in s1.tables.merges)
      && (m.Some? && m.value.candidate == Some(k) && s1.report.written.merge && io.traceWrites <==> Rederives(q, io, k))
      && (Rederives(q, io, k) ==>
            && k in s1.tables.merges
            && (IneligibleReason(s1.tables.merges[k]).None? <==> AttemptMerge(s.tables, s.tree, k, io).1.status == Succeeded))
  {
    if q.identity in s.tables.targets {
      MergeRowOnRecord(s.tables, s.tree, q, io);
      AttemptSupportsRollback(s.tables, s.tree, q.job, q.identity, io);
    }
  }

  /** Exactly when an eligible trace is still eligible after a dispatch: unless the dispatch rederives it from an
      attempt that did not itself succeed. */
  lemma EligibilitySurvivesIff(l: Tables, t: Option<Checkout>, q: Request, io: Io, k: CandidateKey)
    requires Linked(l) && k in l.traces && l.traces[k].eligible
    ensures var l' := DispatchRun(l, t, q, io).tables;
      k in l'.traces
      && (l'.traces[k].eligible <==>
          !Rederives(q, io, k) || AttemptMerge(RecordPhase(l, t, q, io).tables, t, k, io).1.status == Succeeded)
  {
    TraceAfterDispatch(l, t, q, io, k);
  }

  /** This checkout already made a merge of candidate k. */
  ghost predicate MergedHere(w: World, path: string, k: CandidateKey) {
    exists i :: 0 <= i < |w.log| && w.log[i].Merged? && w.log[i].path == path && w.log[i].candidate == k
  }

  /** There the attempt cannot succeed again, whatever the ledger says. */
  lemma NoSecondSuccess(w: World, path: string, l: Tables, k: CandidateKey, io: Io)
    requires Inv(w) && MergedHere(w, path, k)
    ensures AttemptMerge(l, TreeAt(w, path), k, io).1.status != Succeeded
  {
    var i :| 0 <= i < |w.log| && w.log[i].Merged? && w.log[i].path == path && w.log[i].candidate == k;
    assert EffectOk(w.log[i]);
    var t, before, after := w.trees[path], w.log[i].before, w.log[i].after;
    SucceededMeansMoved(t, k.targetRef, k.sourceSha, k.baseSha, io.now, io.merge);
    MergeMovesHeadExactly(t, k.targetRef, k.sourceSha, k.baseSha, io.now, io.merge);
    assert before in after.parents && Height(before) < Height(after);
    AncestorHeight(after, Head(t));
  }

  /** So in the checkout that made the merge, an eligible trace survives a dispatch exactly when the dispatch does
      not rederive it: a duplicate whose ledger writes come off costs the rollback, readable prior row or not. */
  lemma DuplicateCostsRollbackIff(w: World, path: string, q: Request, io: Io, k: CandidateKey)
    requires Reachable(w) && MergedHere(w, path, k) && k in w.tables.traces && w.tables.traces[k].eligible
    ensures var l' := Step(w, DispatchAt(path, q, io)).tables;
      k in l'.traces && (l'.traces[k].eligible <==> !Rederives(q, io, k))
  {
    ReachableInv(w);
    StepRunsDispatch(w, path, q, io);
    EligibilitySurvivesIff(w.tables, TreeAt(w, path), q, io, k);
    NoSecondSuccess(w, path, RecordPhase(w.tables, TreeAt(w, path), q, io).tables, k, io);
  }

  // ---- and what is lost stays lost ----

  /** All dispatches of the run are in this checkout. */
  predicate OnlyAt(es: seq<Event>, path: string) {
    forall i :: 0 <= i < |es| && es[i].DispatchAt? ==> es[i].path == path
  }

  ghost predicate Lost(w: World, path: string, k: CandidateKey) {
    MergedHere(w, path, k) && k in w.tables.traces && !w.tables.traces[k].eligible
  }

  lemma DecisionLeavesTraces(w: World, path: string, sel: Selector, d: Decision, io: OperatorIo)
    ensures AfterDecision(w, path, sel, d, io).tables.traces == w.tables.traces
  {
  }

  lemma StepKeepsLost(w: World, path: string, k: CandidateKey, e: Event)
    requires Inv(w) && Lost(w, path, k) && (e.DispatchAt? ==> e.path == path)
    ensures Lost(Step(w, e), path, k)
  {
    var w' := Step(w, e);
    assert w.log <= w'.log by { if !e.Outside? { NoSilentMoves(w, e); } }
    var i :| 0 <= i < |w.log| && w.log[i].Merged? && w.log[i].path == path && w.log[i].candidate == k;
    assert w'.log[i] == w.log[i];
    match e {
      case DispatchAt(_, q, io) =>
        StepRunsDispatch(w, path, q, io);
        TraceAfterDispatch(w.tables, TreeAt(w, path), q, io, k);
        NoSecondSuccess(w, path, RecordPhase(w.tables, TreeAt(w, path), q, io).tables, k, io);
      case OperatorAt(p, sel, d, io) => DecisionLeavesTraces(w, p, sel, d, io);
      case Outside(_) =>
    }
  }

  /** Once the trace of a merge is ineligible, no further legal run in that checkout makes it eligible again. */
  lemma {:induction false} LostStaysLost(w: World, path: string, k: CandidateKey, es: seq<Event>)
    requires Inv(w) && Lost(w, path, k) && LegalRun(w, es) && OnlyAt(es, path)
    ensures Lost(Exec(w, es), path, k)
    decreases |es|
  {
    if es != [] {
      StepKeeps(w, es[0]);
      StepKeepsLost(w, path, k, es[0]);
      assert OnlyAt(es[1..], path);
      LostStaysLost(Step(w, es[0]), path, k, es[1..]);
    }
  }
}
