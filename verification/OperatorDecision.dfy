/** scripts/operator_review_decision.py: the operator's decision, the second way to a rollback. */
module OperatorDecision {
  import opened Options
  import opened Git
  import opened Outcomes
  import opened GitCommands
  import opened Ledger
  import opened RollbackExecutor
  import opened Dispatch

  datatype Decision = Keep | Rollback | Retry | Escalate | Unsupported

  /** A trace id, or a job id together with the trace its newest-first query returns. */
  datatype Selector = ByTrace(id: TraceId) | ByJob(job: string, newest: Option<TraceId>)

  datatype OperatorIo = OperatorIo(jobReads: bool, traceReads: bool, priorReads: bool, rollbackWrites: bool,
    logWrites: bool, revert: RevertAnswers, now: string)

  datatype DecisionError = TargetNotFound | TraceRequired | PersistenceFailed | UnsupportedDecision | LogWriteFailed

  /** `error` None is the decision status `recorded`. `rollback` None is `not_requested`. */
  datatype DecisionOutcome = DecisionOutcome(error: Option<DecisionError>, rollback: Option<RollbackResult>, persisted: bool, logged: bool)

  datatype OperatorState = OperatorState(tables: Tables, tree: Option<Checkout>, outcome: DecisionOutcome)

  /** The newest trace of a job: none has a later time stamp. */
  ghost predicate NewestFor(l: Tables, job: string, newest: Option<TraceId>) {
    match newest
    case None => forall k :: k in l.traces ==> l.traces[k].job != job
    case Some(id) =>
      && TraceById(l, id).Some? && TraceById(l, id).value.job == job
      && forall k :: k in l.traces && l.traces[k].job == job ==> l.traces[k].recordedAt <= TraceById(l, id).value.recordedAt
  }

  function ResolveTrace(l: Tables, sel: Selector, io: OperatorIo): Option<Trace> {
    match sel
    case ByTrace(id) => if io.traceReads then TraceById(l, id) else None
    case ByJob(job, newest) =>
      if job in l.jobs && io.jobReads && io.traceReads && newest.Some? then TraceById(l, newest.value) else None
  }

  predicate JobResolves(l: Tables, sel: Selector, io: OperatorIo) {
    sel.ByJob? && sel.job in l.jobs && io.jobReads
  }

  /** The operator path asks the ledger in another order and never compares repositories. */
  function OperatorVerdict(t: Trace, prior: Option<RollbackRow>): Verdict {
    if prior.Some? && prior.value.status == Succeeded then AlreadyDone(prior.value)
    else if !t.eligible then Refuse(ReasonText(t.reason))
    else if ColumnText(t.pre).Blank() || ColumnText(t.post).Blank() then Refuse(TraceLinkageIncomplete)
    else Proceed
  }

  /** Both entry points reach the executor under the same ledger condition, but for the repository. */
  lemma SameLedgerCondition(l: Tables, id: TraceId, repo: string, prior: Option<RollbackRow>)
    requires Linked(l) && TraceById(l, id).Some?
    ensures var t := TraceById(l, id).value;
      CliVerdict(t, repo, prior) == Proceed <==> OperatorVerdict(t, prior) == Proceed && t.identity.repo == repo
  {
    var t := TraceById(l, id).value;
    assert t == l.traces[id.candidate];
  }

  datatype OperatorStep = OperatorStep(tables: Tables, tree: Option<Checkout>, result: RollbackResult, written: bool)

  function OperatorRollback(l: Tables, t: Option<Checkout>, trace: Trace, io: OperatorIo): OperatorStep {
    var prior := Lookup(l.rollbacks, trace.id, io.priorReads);
    var (t', r) := AttemptRollback(t, trace, OperatorVerdict(trace, prior), io.now, io.revert);
    var (l', ok) := Committed(l, RecordRollback(l, trace.id, ReportOf(r)), io.rollbackWrites);
    OperatorStep(l', t', r, ok)
  }

  /** The outcome before the decision log line is written. */
  function Decide(l: Tables, t: Option<Checkout>, sel: Selector, d: Decision, io: OperatorIo): OperatorState {
    var trace := ResolveTrace(l, sel, io);
    var stop := (e: DecisionError) => OperatorState(l, t, DecisionOutcome(Some(e), None, false, false));
    if trace.None? && !JobResolves(l, sel, io) then stop(TargetNotFound)
    else match d
      case Keep | Retry | Escalate => OperatorState(l, t, DecisionOutcome(None, None, false, false))
      case Unsupported => stop(UnsupportedDecision)
      case Rollback =>
        if trace.None? then
          OperatorState(l, t, DecisionOutcome(Some(TraceRequired), Some(IdleRollback(RollbackTraceRequired)), false, false))
        else
          var step := OperatorRollback(l, t, trace.value, io);
          OperatorState(step.tables, step.tree,
            DecisionOutcome(if step.written then None else Some(PersistenceFailed), Some(step.result), step.written, false))
  }

  function LogDecision(o: DecisionOutcome, writes: bool): DecisionOutcome {
    if writes then o.(logged := true)
    else o.(error := if o.error.Some? then o.error else Some(LogWriteFailed))
  }

  function OperatorRun(l: Tables, t: Option<Checkout>, sel: Selector, d: Decision, io: OperatorIo): OperatorState {
    var s := Decide(l, t, sel, d, io);
    s.(outcome := LogDecision(s.outcome, io.logWrites))
  }

  method ApplyOperatorDecision(store: LedgerStore, tree: GitWorkTree?, sel: Selector, d: Decision, io: OperatorIo)
    returns (outcome: DecisionOutcome)
    requires Usable(tree)
    modifies store, tree
    ensures Usable(tree)
    ensures OperatorState(store.Value(), ValueOf(tree), outcome)
         == OperatorRun(old(store.Value()), old(ValueOf(tree)), sel, d, io)
  {
    outcome := DecisionOutcome(None, None, false, false);
    var trace := ResolveTrace(store.Value(), sel, io);
    if trace.None? && !JobResolves(store.Value(), sel, io) {
      outcome := outcome.(error := Some(TargetNotFound));
    } else if d.Unsupported? {
      outcome := outcome.(error := Some(UnsupportedDecision));
    } else if d.Rollback? {
      if trace.None? {
        outcome := outcome.(error := Some(TraceRequired), rollback := Some(IdleRollback(RollbackTraceRequired)));
      } else {
        var r, ok := RollBack(store, tree, trace.value, io);
        outcome := outcome.(rollback := Some(r), persisted := ok);
        if !ok { outcome := outcome.(error := Some(PersistenceFailed)); }
      }
    }
    if io.logWrites {
      outcome := outcome.(logged := true);
    } else if outcome.error.None? {
      outcome := outcome.(error := Some(LogWriteFailed));
    }
  }

  method RollBack(store: LedgerStore, tree: GitWorkTree?, trace: Trace, io: OperatorIo) returns (r: RollbackResult, ok: bool)
    requires Usable(tree)
    modifies store, tree
    ensures Usable(tree)
    ensures OperatorStep(store.Value(), ValueOf(tree), r, ok) == OperatorRollback(old(store.Value()), old(ValueOf(tree)), trace, io)
  {
    var prior := Lookup(store.rollbacks, trace.id, io.priorReads);
    var verdict := Proceed;
    if prior.Some? && prior.value.status == Succeeded {
      verdict := AlreadyDone(prior.value);
    } else if !trace.eligible {
      verdict := Refuse(ReasonText(trace.reason));
    } else if ColumnText(trace.pre).Blank() || ColumnText(trace.post).Blank() {
      verdict := Refuse(TraceLinkageIncomplete);
    }
    assert verdict == OperatorVerdict(trace, prior);
    r := ActOn(tree, trace, verdict, io.now, io.revert);
    ok := store.PutRollback(trace.id, ReportOf(r), io.rollbackWrites);
  }

  /** Keep, retry and escalate are records only. */
  lemma BookkeepingOnly(l: Tables, t: Option<Checkout>, sel: Selector, d: Decision, io: OperatorIo)
    requires !d.Rollback?
    ensures var s := OperatorRun(l, t, sel, d, io); s.tables == l && s.tree == t && s.outcome.rollback == None
  {
  }
}
