/** When a rollback makes a commit, what becomes of its row, and which dispatch authorised a merge. */
module ProtocolRecords {
  import opened Options
  import opened Git
  import opened Outcomes
  import opened GitCommands
  import opened Ledger
  import opened MergeExecutor
  import opened RollbackExecutor
  import opened Dispatch
  import opened OperatorDecision
  import opened ProtocolRuns
  import opened ProtocolTheorems

  // ---- exactly when a revert is made ----

  /** No guard refuses to undo the trace in this checkout, git runs the revert, and there is something to undo. */
  predicate Undoable(w: Checkout, trace: Trace, a: RevertAnswers) {
    && RollbackRefusal(w, trace.identity.targetRef, ColumnText(trace.pre), ColumnText(trace.post), a).None? && a.run.RevertRuns?
    && Head(w).parents != [] && Head(w).tree != Head(w).parents[0].tree
  }

  lemma ActingRevertsIff(w: World, path: string, trace: Trace, v: Verdict, now: string, a: RevertAnswers)
    ensures var t := AttemptRollback(TreeAt(w, path), trace, v, now, a).0;
      Moved(TreeAt(w, path), t) <==> path in w.trees && v == Proceed && Undoable(w.trees[path], trace, a)
  {
    if path in w.trees {
      RollbackMovesIff(w.trees[path], trace.identity.targetRef, ColumnText(trace.pre), ColumnText(trace.post), now, a);
    }
  }

  /** The trace a rollback request of a dispatch finds. */
  function Requested(l: Tables, q: Request, io: Io): Option<Trace> {
    if q.executeRollback && q.rollbackTraceId.Some? && io.traceReads then TraceById(l, q.rollbackTraceId.value) else None
  }

  /** The rollback step of a dispatch makes a commit exactly when the trace can be read, is cleared by the ledger and can
      be undone; then it logs that one revert, and it never logs anything else. */
  lemma RollbackLogsIff(w: World, path: string, q: Request, io: Io)
    ensures var w' := AfterRollback(w, path, q, io);
      var trace := Requested(w.tables, q, io);
      if trace.Some? && path in w.trees && Undoable(w.trees[path], trace.value, io.revert)
         && CliVerdict(trace.value, q.identity.repo, Lookup(w.tables.rollbacks, trace.value.id, io.priorRollbackReads)) == Proceed
      then path in w'.trees && w'.log == w.log + [Reverted(path, trace.value.id, Head(w.trees[path]), Head(w'.trees[path]))]
      else w'.log == w.log
  {
    var trace := Requested(w.tables, q, io);
    if trace.Some? {
      var v := CliVerdict(trace.value, q.identity.repo, Lookup(w.tables.rollbacks, trace.value.id, io.priorRollbackReads));
      ActingRevertsIff(w, path, trace.value, v, io.now, io.revert);
    }
  }

  /** The same for an operator decision, which does not compare repositories. */
  lemma DecisionLogsIff(w: World, path: string, sel: Selector, d: Decision, io: OperatorIo)
    ensures var w' := AfterDecision(w, path, sel, d, io);
      var trace := ResolveTrace(w.tables, sel, io);
      if d.Rollback? && trace.Some? && path in w.trees && Undoable(w.trees[path], trace.value, io.revert)
         && OperatorVerdict(trace.value, Lookup(w.tables.rollbacks, trace.value.id, io.priorReads)) == Proceed
      then path in w'.trees && w'.log == w.log + [Reverted(path, trace.value.id, Head(w.trees[path]), Head(w'.trees[path]))]
      else w'.log == w.log
  {
    var trace := ResolveTrace(w.tables, sel, io);
    if trace.Some? {
      var v := OperatorVerdict(trace.value, Lookup(w.tables.rollbacks, trace.value.id, io.priorReads));
      ActingRevertsIff(w, path, trace.value, v, io.now, io.revert);
    }
  }

  // ---- a duplicate rollback and its row ----

  predicate SaysSucceeded(l: Tables, id: TraceId) { id in l.rollbacks && l.rollbacks[id].status == Succeeded }

  /** Exactly when a succeeded rollback row survives a rollback request of a dispatch: unless the request finds the trace
      and rewrites the row from an attempt that did not itself succeed. */
  lemma RollbackRowSurvivesIff(s: State, q: Request, io: Io, id: TraceId)
    requires SaysSucceeded(s.tables, id)
    ensures var l' := RollbackPhase(s, q, io).tables;
      var trace := Requested(s.tables, q, io);
      SaysSucceeded(l', id) <==>
        !(trace.Some? && trace.value.id == id && io.rollbackWrites)
        || AttemptRollback(s.tree, trace.value, CliVerdict(trace.value, q.identity.repo, Lookup(s.tables.rollbacks, id, io.priorRollbackReads)),
                           io.now, io.revert).1.status == Succeeded
  {
  }

  /** The same for an operator decision. */
  lemma DecisionRowSurvivesIff(l: Tables, t: Option<Checkout>, sel: Selector, d: Decision, io: OperatorIo, id: TraceId)
    requires SaysSucceeded(l, id)
    ensures var l' := OperatorRun(l, t, sel, d, io).tables;
      var trace := ResolveTrace(l, sel, io);
      SaysSucceeded(l', id) <==>
        !(d.Rollback? && trace.Some? && trace.value.id == id && io.rollbackWrites)
        || AttemptRollback(t, trace.value, OperatorVerdict(trace.value, Lookup(l.rollbacks, id, io.priorReads)),
                           io.now, io.revert).1.status == Succeeded
  {
  }

  /** In particular a duplicate that can read the row forgets the success, by either entry point. */
  lemma DuplicateRollbackForgets(l: Tables, t: Option<Checkout>, q: Request, io: Io, sel: Selector, oio: OperatorIo, id: TraceId)
    requires SaysSucceeded(l, id) && TraceById(l, id).Some?
    ensures q.executeRollback && q.rollbackTraceId == Some(id) && io.traceReads && io.priorRollbackReads && io.rollbackWrites ==>
      !SaysSucceeded(DoRollback(l, t, q, io).tables, id)
    ensures ResolveTrace(l, sel, oio) == TraceById(l, id) && oio.priorReads && oio.rollbackWrites ==>
      !SaysSucceeded(OperatorRun(l, t, sel, Rollback, oio).tables, id)
  {
  }

  // ---- authorisation over runs ----

  /** The dispatch records its candidate: the verdict passed, the identity is there, and the write came off. */
  predicate Records(e: Event, k: CandidateKey) {
    e.DispatchAt? && e.q.candidate && e.q.HasIdentity() && e.io.targetWrites && e.q.identity == k
  }

  predicate RecordedIn(es: seq<Event>, k: CandidateKey) {
    exists i :: 0 <= i < |es| && Records(es[i], k)
  }

  /** One step adds exactly that target and removes none. */
  lemma StepTargets(w: World, e: Event, k: CandidateKey)
    ensures k in Step(w, e).tables.targets <==> k in w.tables.targets || Records(e, k)
  {
    match e
    case DispatchAt(path, q, io) =>
      StepRunsDispatch(w, path, q, io);
      var s0 := RecordPhase(w.tables, TreeAt(w, path), q, io);
      var s1 := MergePhase(s0, q, io);
      MergeLeavesTargets(s0, q, io);
      FollowUpLeavesTargets(s1, q, io);
      RollbackLeavesTargets(FollowUpPhase(s1, q, io), q, io);
    case OperatorAt(path, sel, d, io) => DecisionLeavesTargets(w, path, sel, d, io);
    case Outside(_) =>
  }

  lemma MergeLeavesTargets(s: State, q: Request, io: Io)
    ensures MergePhase(s, q, io).tables.targets == s.tables.targets
  {
    assert forall row :: RecordMerge(s.tables, row).Some? ==> RecordMerge(s.tables, row).value.targets == s.tables.targets;
  }

  lemma FollowUpLeavesTargets(s: State, q: Request, io: Io)
    ensures FollowUpPhase(s, q, io).tables.targets == s.tables.targets
  {
    ReceiptLeavesRest(s.tables, s.report.merge, q, io);
  }

  lemma RollbackLeavesTargets(s: State, q: Request, io: Io)
    ensures RollbackPhase(s, q, io).tables.targets == s.tables.targets
  {
  }

  lemma DecisionLeavesTargets(w: World, path: string, sel: Selector, d: Decision, io: OperatorIo)
    ensures AfterDecision(w, path, sel, d, io).tables.targets == w.tables.targets
  {
  }

  lemma RecordedSplits(es: seq<Event>, k: CandidateKey)
    requires es != []
    ensures RecordedIn(es, k) <==> Records(es[0], k) || RecordedIn(es[1..], k)
  {
    if i :| 0 <= i < |es| && Records(es[i], k) && i > 0 { assert Records(es[1..][i - 1], k); }
    if i :| 0 <= i < |es| - 1 && Records(es[1..][i], k) { assert Records(es[i + 1], k); }
  }

  /** A target is on record exactly when some dispatch of the run recorded it. */
  lemma {:induction false} TargetsAreRecorded(w: World, es: seq<Event>, k: CandidateKey)
    ensures k in Exec(w, es).tables.targets <==> k in w.tables.targets || RecordedIn(es, k)
    decreases |es|
  {
    if es != [] {
      StepTargets(w, es[0], k);
      TargetsAreRecorded(Step(w, es[0]), es[1..], k);
      RecordedSplits(es, k);
    }
  }

  /** A dispatch gets past the target check exactly when its own or an earlier dispatch of the run recorded the
      candidate; its own verdict is not asked for. */
  lemma PastTargetCheckIff(w: World, es: seq<Event>, path: string, q: Request, io: Io)
    requires Start(w) && LegalRun(w, es)
    ensures MergeStop(RecordPhase(Exec(w, es).tables, TreeAt(Exec(w, es), path), q, io).tables, q, io).None? <==>
      q.HasIdentity() && io.targetReads && (RecordedIn(es, q.identity) || Records(DispatchAt(path, q, io), q.identity))
  {
    RunKeeps(w, es);
    TargetsAreRecorded(w, es, q.identity);
    var w1 := Exec(w, es);
    RecordLeavesRest(w1.tables, TreeAt(w1, path), q, io);
    RecordTargets(w1.tables, TreeAt(w1, path), q, io, q.identity);
  }

  lemma RecordTargets(l: Tables, t: Option<Checkout>, q: Request, io: Io, k: CandidateKey)
    ensures k in RecordPhase(l, t, q, io).tables.targets <==>
      k in l.targets || (q.candidate && q.HasIdentity() && io.targetWrites && q.identity == k)
  {
  }

  ghost predicate MergedIn(log: seq<Effect>, k: CandidateKey) {
    exists i :: 0 <= i < |log| && log[i].Merged? && log[i].candidate == k
  }

  /** Which candidates a world's log says were merged. */
  ghost predicate MergeLogged(w: World, k: CandidateKey) { MergedIn(w.log, k) }

  lemma OneMore(log: seq<Effect>, e: Effect, k: CandidateKey)
    ensures MergedIn(log + [e], k) <==> MergedIn(log, k) || (e.Merged? && e.candidate == k)
  {
    if i :| 0 <= i < |log| && log[i].Merged? && log[i].candidate == k { assert (log + [e])[i] == log[i]; }
    assert (log + [e])[|log|] == e;
  }

  /** The merge phase logs nothing, or a merge whose target is on record. */
  lemma MergePhaseMerges(w: World, path: string, q: Request, io: Io, k: CandidateKey)
    ensures MergedIn(AfterMerge(w, path, q, io).log, k) ==> MergedIn(w.log, k) || k in w.tables.targets
  {
    MergeLogsIff(w, path, q, io);
    var w' := AfterMerge(w, path, q, io);
    if |w'.log| > |w.log| { OneMore(w.log, w'.log[|w.log|], k); }
  }

  lemma RollbackPhaseMerges(w: World, path: string, q: Request, io: Io, k: CandidateKey)
    ensures MergedIn(AfterRollback(w, path, q, io).log, k) ==> MergedIn(w.log, k)
  {
    RollbackLogsIff(w, path, q, io);
    var w' := AfterRollback(w, path, q, io);
    if |w'.log| > |w.log| { OneMore(w.log, w'.log[|w.log|], k); }
  }

  lemma DecisionMerges(w: World, path: string, sel: Selector, d: Decision, io: OperatorIo, k: CandidateKey)
    ensures MergedIn(AfterDecision(w, path, sel, d, io).log, k) ==> MergedIn(w.log, k)
  {
    DecisionLogsIff(w, path, sel, d, io);
    var w' := AfterDecision(w, path, sel, d, io);
    if |w'.log| > |w.log| { OneMore(w.log, w'.log[|w.log|], k); }
  }

  /** A step that logs a merge leaves its target on record. */
  lemma StepMergesRecorded(w: World, e: Event, k: CandidateKey)
    ensures MergeLogged(Step(w, e), k) && !MergeLogged(w, k) ==> k in Step(w, e).tables.targets
  {
    match e
    case DispatchAt(path, q, io) =>
      var s0 := RecordPhase(w.tables, TreeAt(w, path), q, io);
      var w0 := w.(tables := s0.tables);
      MergePhaseMerges(w0, path, q, io, k);
      var w1 := AfterMerge(w0, path, q, io);
      var report := MergePhase(s0, q, io).report;
      RollbackPhaseMerges(w1.(tables := ReceiptAndTrace(w1.tables, report.merge, report.written, q, io).tables), path, q, io, k);
      RecordTargets(w.tables, TreeAt(w, path), q, io, k);
      StepTargets(w, e, k);
    case OperatorAt(path, sel, d, io) => DecisionMerges(w, path, sel, d, io, k);
    case Outside(_) =>
  }

  /** Every merge of a run was authorised: some dispatch of the run carried a passed verdict for just that candidate and
      recorded it. */
  lemma {:induction false} MergesAreAuthorised(w: World, es: seq<Event>, k: CandidateKey)
    requires MergeLogged(Exec(w, es), k)
    ensures MergeLogged(w, k) || k in w.tables.targets || RecordedIn(es, k)
    decreases |es|
  {
    if es != [] {
      MergesAreAuthorised(Step(w, es[0]), es[1..], k);
      StepMergesRecorded(w, es[0], k);
      StepTargets(w, es[0], k);
      RecordedSplits(es, k);
    }
  }

  /** So from the start a logged merge has a recording dispatch and a target row. */
  lemma LoggedMergeWasRecorded(w: World, es: seq<Event>, k: CandidateKey)
    requires Start(w) && MergeLogged(Exec(w, es), k)
    ensures RecordedIn(es, k) && k in Exec(w, es).tables.targets
  {
    MergesAreAuthorised(w, es, k);
    TargetsAreRecorded(w, es, k);
  }
}
