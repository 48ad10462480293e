/** What an operator decision answers and leaves behind, field by field. */
module OperatorAnswers {
  import opened Options
  import opened Git
  import opened Outcomes
  import opened GitCommands
  import opened Ledger
  import opened RollbackExecutor
  import opened Dispatch
  import opened OperatorDecision
  import opened DispatchAnswers

  /** The trace on record under this id. */
  function Stored(l: Tables, id: TraceId): Option<Trace> {
    if id.candidate in l.traces && l.traces[id.candidate].id == id then Some(l.traces[id.candidate]) else None
  }

  predicate JobFound(l: Tables, sel: Selector, io: OperatorIo) { sel.ByJob? && sel.job in l.jobs && io.jobReads }

  /** A trace id finds its trace; a job finds its newest one, once the job itself is found. */
  function Found(l: Tables, sel: Selector, io: OperatorIo): Option<Trace> {
    if !io.traceReads then None
    else if sel.ByTrace? then Stored(l, sel.id)
    else if JobFound(l, sel, io) && sel.newest.Some? then Stored(l, sel.newest.value)
    else None
  }

  /** The rollback part, first obstacle first: a stored success, then eligibility, then linkage. */
  predicate DecisionAnswer(tr: Trace, prior: Option<RollbackRow>, t: Option<Checkout>, o: RollbackResult, t': Option<Checkout>, io: OperatorIo) {
    if prior.Some? && prior.value.status == Succeeded then
      t' == t && o == RollbackResult(Skipped, false, prior.value.attemptedAt, prior.value.consistent, prior.value.currentHead,
                                     prior.value.result, Some(AlreadyRolledBackForTrace))
    else if !tr.eligible then t' == t && o == Idle(match tr.reason case Some(v) => v case None => FreeText("None"))
    else if tr.pre == Some(Text("")) || tr.post == Some(Text("")) then t' == t && o == Idle(TraceLinkageIncomplete)
    else (t', o) == ConstrainedRollback(t, tr.identity.targetRef,
                                        match tr.pre case Some(v) => v case None => Text("None"),
                                        match tr.post case Some(v) => v case None => Text("None"), io.now, io.revert)
  }

  lemma FoundIsResolved(l: Tables, sel: Selector, io: OperatorIo)
    ensures ResolveTrace(l, sel, io) == Found(l, sel, io)
    ensures Found(l, sel, io).Some? ==> Stored(l, Found(l, sel, io).value.id) == Found(l, sel, io)
  {
  }

  lemma RollbackAnswers(l: Tables, t: Option<Checkout>, tr: Trace, io: OperatorIo)
    requires Stored(l, tr.id) == Some(tr)
    ensures var s := OperatorRollback(l, t, tr, io);
      var prior := if io.priorReads && tr.id in l.rollbacks then Some(l.rollbacks[tr.id]) else None;
      && s.written == io.rollbackWrites
      && DecisionAnswer(tr, prior, t, s.result, s.tree, io)
      && if !s.written then s.tables == l
         else tr.id in s.tables.rollbacks && s.tables == l.(rollbacks := l.rollbacks[tr.id := s.tables.rollbacks[tr.id]])
              && RowSays(s.tables.rollbacks[tr.id], tr, s.result)
  {
    var s := OperatorRollback(l, t, tr, io);
    if s.written { assert s.tables.rollbacks == l.rollbacks[tr.id := RollbackRowOf(tr, ReportOf(s.result))]; }
  }

  /** The error a failed log line leaves: the one there is, else its own. */
  function Logged(error: Option<DecisionError>, io: OperatorIo): Option<DecisionError> {
    if error.None? && !io.logWrites then Some(LogWriteFailed) else error
  }

  /** Everything but a rollback that finds its trace only answers. */
  lemma OtherDecisionsAnswer(l: Tables, t: Option<Checkout>, sel: Selector, d: Decision, io: OperatorIo)
    requires d != Rollback || Found(l, sel, io).None?
    ensures var s := OperatorRun(l, t, sel, d, io);
      && s.tables == l && s.tree == t && !s.outcome.persisted && s.outcome.logged == io.logWrites
      && s.outcome.rollback == (if d == Rollback && JobFound(l, sel, io) then Some(Idle(RollbackTraceRequired)) else None)
      && s.outcome.error == Logged(
           if Found(l, sel, io).None? && !JobFound(l, sel, io) then Some(TargetNotFound)
           else if d == Unsupported then Some(UnsupportedDecision)
           else if d == Rollback then Some(TraceRequired)
           else None, io)
  {
    FoundIsResolved(l, sel, io);
  }

  /** A rollback decision that finds its trace: the answer, the row, and what is said of writing them. */
  lemma RollbackDecisionAnswers(l: Tables, t: Option<Checkout>, sel: Selector, io: OperatorIo)
    requires Found(l, sel, io).Some?
    ensures var s, tr := OperatorRun(l, t, sel, Rollback, io), Found(l, sel, io).value;
      var prior := if io.priorReads && tr.id in l.rollbacks then Some(l.rollbacks[tr.id]) else None;
      && s.outcome.rollback.Some? && s.outcome.persisted == io.rollbackWrites && s.outcome.logged == io.logWrites
      && s.outcome.error == Logged(if io.rollbackWrites then None else Some(PersistenceFailed), io)
      && DecisionAnswer(tr, prior, t, s.outcome.rollback.value, s.tree, io)
      && if !io.rollbackWrites then s.tables == l
         else tr.id in s.tables.rollbacks && s.tables == l.(rollbacks := l.rollbacks[tr.id := s.tables.rollbacks[tr.id]])
              && RowSays(s.tables.rollbacks[tr.id], tr, s.outcome.rollback.value)
  {
    FoundIsResolved(l, sel, io);
    RollbackAnswers(l, t, Found(l, sel, io).value, io);
  }
}
