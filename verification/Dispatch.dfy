/** The execution part of orchestrator/main.py: record the target, merge, write the receipt, derive
    the rollback trace, roll back. The evaluator's verdict and every read, write and git answer are inputs. */
module Dispatch {
  import opened Options
  import opened Git
  import opened Outcomes
  import opened GitCommands
  import opened Ledger
  import opened MergeExecutor
  import opened RollbackExecutor

  datatype Request = Request(
    job: string, identity: Identity, candidate: bool, executeMerge: bool, executeRollback: bool,
    rollbackTraceId: Option<TraceId>, adapterSignal: Option<Signal>)
  {
    predicate HasIdentity() {
      identity.targetRef != "" && !identity.sourceSha.Blank() && !identity.baseSha.Blank()
    }
  }

  /** Which reads and writes come off, and what git answers. A failed read looks like a missing row. */
  datatype Io = Io(
    jobWrites: bool, targetWrites: bool, targetReads: bool, priorReads: bool, mergeWrites: bool,
    receiptWrites: bool, traceWrites: bool, traceReads: bool, priorRollbackReads: bool, rollbackWrites: bool,
    merge: MergeAnswers, revert: RevertAnswers, now: string, recordedAt: nat)

  datatype TraceNote = TraceNote(recorded: bool, eligible: Option<bool>, reason: Option<Reason>, id: Option<TraceId>)

  datatype MergePayload = MergePayload(outcome: MergeResult, candidate: Option<CandidateKey>, trace: TraceNote)

  datatype RollbackPayload = RollbackPayload(traceId: Option<TraceId>, outcome: RollbackResult)

  datatype Persistence = Persistence(job: bool, target: bool, merge: bool, receipt: bool, trace: bool, rollback: bool)

  datatype Report = Report(merge: Option<MergePayload>, rollback: Option<RollbackPayload>, written: Persistence)

  function IdleMerge(reason: Reason): MergeResult {
    MergeResult(Skipped, false, None, None, None, None, Some(reason))
  }

  function IdleRollback(reason: Reason): RollbackResult {
    RollbackResult(Skipped, false, None, false, None, None, Some(reason))
  }

  function Lookup<K, V>(m: map<K, V>, k: K, readable: bool): Option<V> {
    if readable && k in m then Some(m[k]) else None
  }

  function Committed(before: Tables, after: Option<Tables>, commits: bool): (Tables, bool) {
    if commits && after.Some? then (after.value, true) else (before, false)
  }

  // ---- merge ----

  /** `get_execution_target_by_identity`: the row stored under this identity. */
  function PersistedTarget(l: Tables, id: Identity, readable: bool): Option<Target> {
    var row := Lookup(l.targets, CandidateKeyOf(id), readable);
    if row.Some? && row.value.identity == id then row else None
  }

  /** Repeats the stored outcome of a merge that is on record as succeeded. */
  function AlreadyMerged(m: MergeRow): MergeResult {
    MergeResult(Skipped, false, m.executedAt, m.pre, m.post, m.result, Some(AlreadyMergedForCandidate))
  }

  function AttemptMerge(l: Tables, t: Option<Checkout>, id: Identity, io: Io): (Option<Checkout>, MergeResult) {
    var prior := Lookup(l.merges, CandidateKeyOf(id), io.priorReads);
    if prior.Some? && prior.value.status == Succeeded then (t, AlreadyMerged(prior.value))
    else ConstrainedMerge(t, id.targetRef, id.sourceSha, id.baseSha, io.now, io.merge)
  }

  function MergeRowOf(job: string, id: Identity, r: MergeResult): MergeRow {
    MergeRow(job, id, r.status, r.attemptedAt, r.preMergeSha, r.postMergeSha, r.mergeResultSha, r.error)
  }

  function SignalOf(r: MergeResult): Signal { Signal(r.status, r.attemptedAt, r.mergeResultSha, r.error) }

  /** Why the merge step stops before the prior-row check; None when the target is on record. */
  function MergeStop(l: Tables, q: Request, io: Io): Option<Reason> {
    if !q.HasIdentity() then Some(ExecutionTargetIdentityMissing)
    else if PersistedTarget(l, q.identity, io.targetReads).None? then Some(ExecutionTargetNotPersisted)
    else None
  }

  datatype State = State(tables: Tables, tree: Option<Checkout>, report: Report)

  function RecordPhase(l: Tables, t: Option<Checkout>, q: Request, io: Io): State {
    var (l1, jobOk) := Committed(l, Some(RecordJob(l, q.job, q.identity.repo)), io.jobWrites);
    var (l2, targetOk) := Committed(l1, Some(RecordTarget(l1, q.job, q.identity, true)),
                                    q.candidate && q.HasIdentity() && io.targetWrites);
    State(l2, t, Report(None, None, Persistence(jobOk, targetOk, false, false, false, false)))
  }

  datatype MergeStep = MergeStep(tables: Tables, tree: Option<Checkout>, payload: MergePayload, written: bool)

  function DoMerge(l: Tables, t: Option<Checkout>, q: Request, io: Io): MergeStep {
    var stop := MergeStop(l, q, io);
    if stop.Some? then
      MergeStep(l, t, MergePayload(IdleMerge(stop.value), None, TraceNote(false, None, stop, None)), false)
    else
      var (t', r) := AttemptMerge(l, t, q.identity, io);
      var (l', ok) := Committed(l, RecordMerge(l, MergeRowOf(q.job, q.identity, r)), io.mergeWrites);
      MergeStep(l', t', MergePayload(r, Some(CandidateKeyOf(q.identity)), TraceNote(false, None, None, None)), ok)
  }

  function MergePhase(s: State, q: Request, io: Io): State {
    if !q.executeMerge then s
    else
      var m := DoMerge(s.tables, s.tree, q, io);
      State(m.tables, m.tree, s.report.(merge := Some(m.payload), written := s.report.written.(merge := m.written)))
  }

  datatype FollowUp = FollowUp(tables: Tables, merge: Option<MergePayload>, written: Persistence)

  /** The signal the receipt is written for: the merge just tried, else what the adapter reported. */
  function ReceiptSignal(merge: Option<MergePayload>, q: Request): Option<Signal> {
    if merge.Some? && merge.value.candidate.Some? then Some(SignalOf(merge.value.outcome)) else q.adapterSignal
  }

  function ReceiptWrite(l: Tables, merge: Option<MergePayload>, q: Request, io: Io): (Tables, Option<AttemptKey>) {
    var signal := ReceiptSignal(merge, q);
    if signal.None? || !q.HasIdentity() then (l, None)
    else
      var (l', ok) := Committed(l, RecordReceipt(l, q.job, q.identity, signal.value), io.receiptWrites);
      (l', if ok then Some(AttemptKeyOf(CandidateKeyOf(q.identity), signal.value)) else None)
  }

  datatype TraceStep = TraceStep(tables: Tables, note: TraceNote, written: bool)

  function TraceWrite(l: Tables, key: CandidateKey, receipt: Option<AttemptKey>, io: Io): TraceStep {
    var (l', ok) := Committed(l, RecordTrace(l, key, receipt, io.recordedAt), io.traceWrites);
    if ok && key in l'.traces then
      TraceStep(l', TraceNote(true, Some(l'.traces[key].eligible), l'.traces[key].reason, Some(l'.traces[key].id)), true)
    else TraceStep(l', TraceNote(false, Some(false), Some(RollbackTracePersistenceFailed), None), false)
  }

  /** The receipt first; then the trace, only when the merge outcome row was written just before. */
  function ReceiptAndTrace(l: Tables, merge: Option<MergePayload>, written: Persistence, q: Request, io: Io): FollowUp {
    var (l', receipt) := ReceiptWrite(l, merge, q, io);
    var w := written.(receipt := receipt.Some?);
    if merge.None? || merge.value.candidate.None? || !written.merge then FollowUp(l', merge, w)
    else
      var step := TraceWrite(l', merge.value.candidate.value, receipt, io);
      FollowUp(step.tables, Some(merge.value.(trace := step.note)), w.(trace := step.written))
  }

  function FollowUpPhase(s: State, q: Request, io: Io): State {
    var f := ReceiptAndTrace(s.tables, s.report.merge, s.report.written, q, io);
    s.(tables := f.tables, report := s.report.(merge := f.merge, written := f.written))
  }

  // ---- rollback, first entry point ----

  /** A null reason read back through str() becomes the text None. */
  function ReasonText(r: Option<Reason>): Reason { if r.Some? then r.value else FreeText("None") }

  /** Whether a rollback request for a trace reaches the executor. */
  datatype Verdict = Proceed | Refuse(reason: Reason) | AlreadyDone(row: RollbackRow)

  function CliVerdict(t: Trace, repo: string, prior: Option<RollbackRow>): Verdict {
    if !t.eligible then Refuse(ReasonText(t.reason))
    else if OrBlank(t.pre).Blank() || OrBlank(t.post).Blank() then Refuse(TraceLinkageIncomplete)
    else if t.identity.repo != repo then Refuse(TraceRepoMismatch)
    else if prior.Some? && prior.value.status == Succeeded then AlreadyDone(prior.value)
    else Proceed
  }

  function AttemptRollback(t: Option<Checkout>, trace: Trace, v: Verdict, now: string, a: RevertAnswers)
    : (Option<Checkout>, RollbackResult)
  {
    match v
    case Proceed => ConstrainedRollback(t, trace.identity.targetRef, ColumnText(trace.pre), ColumnText(trace.post), now, a)
    case Refuse(reason) => (t, IdleRollback(reason))
    case AlreadyDone(row) =>
      (t, RollbackResult(Skipped, false, row.attemptedAt, row.consistent, row.currentHead, row.result, Some(AlreadyRolledBackForTrace)))
  }

  function ReportOf(r: RollbackResult): RollbackReport {
    RollbackReport(r.status, r.attemptedAt, r.currentHeadSha, r.rollbackResultSha, r.error, r.consistent)
  }

  datatype RollbackStep = RollbackStep(tables: Tables, tree: Option<Checkout>, payload: RollbackPayload, written: bool)

  function DoRollback(l: Tables, t: Option<Checkout>, q: Request, io: Io): RollbackStep {
    if q.rollbackTraceId.None? then
      RollbackStep(l, t, RollbackPayload(None, IdleRollback(RollbackTraceIdRequired)), false)
    else
      var id := q.rollbackTraceId.value;
      var trace := if io.traceReads then TraceById(l, id) else None;
      if trace.None? then RollbackStep(l, t, RollbackPayload(Some(id), IdleRollback(RollbackTraceNotFound)), false)
      else
        var prior := Lookup(l.rollbacks, id, io.priorRollbackReads);
        var (t', r) := AttemptRollback(t, trace.value, CliVerdict(trace.value, q.identity.repo, prior), io.now, io.revert);
        var (l', ok) := Committed(l, RecordRollback(l, id, ReportOf(r)), io.rollbackWrites);
        RollbackStep(l', t', RollbackPayload(Some(id), r), ok)
  }

  function RollbackPhase(s: State, q: Request, io: Io): State {
    if !q.executeRollback then s
    else
      var r := DoRollback(s.tables, s.tree, q, io);
      State(r.tables, r.tree, s.report.(rollback := Some(r.payload), written := s.report.written.(rollback := r.written)))
  }

  /** One accepted dispatch, from the recorded verdict to the written result. */
  function DispatchRun(l: Tables, t: Option<Checkout>, q: Request, io: Io): State {
    RollbackPhase(FollowUpPhase(MergePhase(RecordPhase(l, t, q, io), q, io), q, io), q, io)
  }

  method RunDispatch(store: LedgerStore, tree: GitWorkTree?, q: Request, io: Io) returns (report: Report)
    requires Usable(tree)
    modifies store, tree
    ensures Usable(tree)
    ensures State(store.Value(), ValueOf(tree), report) == DispatchRun(old(store.Value()), old(ValueOf(tree)), q, io)
  {
    var written := Persistence(false, false, false, false, false, false);
    var ok := store.PutJob(q.job, q.identity.repo, io.jobWrites);
    written := written.(job := ok);
    if q.candidate && q.HasIdentity() {
      ok := store.PutTarget(q.job, q.identity, true, io.targetWrites);
      written := written.(target := ok);
    }
    assert State(store.Value(), ValueOf(tree), Report(None, None, written))
        == RecordPhase(old(store.Value()), old(ValueOf(tree)), q, io);
    report := FinishDispatch(store, tree, q, io, written);
  }

  method FinishDispatch(store: LedgerStore, tree: GitWorkTree?, q: Request, io: Io, recorded: Persistence) returns (report: Report)
    requires Usable(tree)
    modifies store, tree
    ensures Usable(tree)
    ensures State(store.Value(), ValueOf(tree), report)
         == RollbackPhase(FollowUpPhase(MergePhase(State(old(store.Value()), old(ValueOf(tree)), Report(None, None, recorded)), q, io), q, io), q, io)
  {
    var written, ok := recorded, false;
    var merge: Option<MergePayload> := None;
    if q.executeMerge {
      var payload;
      payload, ok := DispatchMerge(store, tree, q, io);
      merge, written := Some(payload), written.(merge := ok);
    }
    merge, written := WriteReceiptAndTrace(store, merge, written, q, io);
    var rollback: Option<RollbackPayload> := None;
    if q.executeRollback {
      var payload;
      payload, ok := DispatchRollback(store, tree, q, io);
      rollback, written := Some(payload), written.(rollback := ok);
    }
    report := Report(merge, rollback, written);
  }

  method WriteReceiptAndTrace(store: LedgerStore, merge: Option<MergePayload>, written: Persistence, q: Request, io: Io)
    returns (merge': Option<MergePayload>, written': Persistence)
    modifies store
    ensures FollowUp(store.Value(), merge', written') == ReceiptAndTrace(old(store.Value()), merge, written, q, io)
  {
    merge', written' := merge, written;
    var receipt := WriteReceipt(store, merge, q, io);
    written' := written'.(receipt := receipt.Some?);
    if merge.Some? && merge.value.candidate.Some? && written.merge {
      var note, ok := WriteTrace(store, merge.value.candidate.value, receipt, io);
      merge', written' := Some(merge.value.(trace := note)), written'.(trace := ok);
    }
  }

  method WriteReceipt(store: LedgerStore, merge: Option<MergePayload>, q: Request, io: Io) returns (receipt: Option<AttemptKey>)
    modifies store
    ensures (store.Value(), receipt) == ReceiptWrite(old(store.Value()), merge, q, io)
  {
    var signal := q.adapterSignal;
    if merge.Some? && merge.value.candidate.Some? {
      signal := Some(SignalOf(merge.value.outcome));
    }
    receipt := None;
    if signal.Some? && q.HasIdentity() {
      receipt := store.PutReceipt(q.job, q.identity, signal.value, io.receiptWrites);
    }
  }

  method WriteTrace(store: LedgerStore, key: CandidateKey, receipt: Option<AttemptKey>, io: Io) returns (note: TraceNote, ok: bool)
    modifies store
    ensures TraceStep(store.Value(), note, ok) == TraceWrite(old(store.Value()), key, receipt, io)
  {
    note := TraceNote(false, Some(false), Some(RollbackTracePersistenceFailed), None);
    var row := store.PutTrace(key, receipt, io.recordedAt, io.traceWrites);
    ok := row.Some?;
    if ok {
      note := TraceNote(true, Some(row.value.eligible), row.value.reason, Some(row.value.id));
    }
  }

  method DispatchMerge(store: LedgerStore, tree: GitWorkTree?, q: Request, io: Io) returns (payload: MergePayload, ok: bool)
    requires Usable(tree)
    modifies store, tree
    ensures Usable(tree)
    ensures MergeStep(store.Value(), ValueOf(tree), payload, ok) == DoMerge(old(store.Value()), old(ValueOf(tree)), q, io)
  {
    payload := MergePayload(IdleMerge(MergeNotRequestedOrNotEligible), None, TraceNote(false, None, None, None));
    if !q.HasIdentity() {
      var why := ExecutionTargetIdentityMissing;
      return payload.(outcome := payload.outcome.(error := Some(why)), trace := payload.trace.(reason := Some(why))), false;
    }
    var target := PersistedTarget(store.Value(), q.identity, io.targetReads);
    if target.None? {
      var why := ExecutionTargetNotPersisted;
      return payload.(outcome := payload.outcome.(error := Some(why)), trace := payload.trace.(reason := Some(why))), false;
    }
    var key := CandidateKeyOf(q.identity);
    payload := payload.(candidate := Some(key));
    var prior := Lookup(store.merges, key, io.priorReads);
    if prior.Some? && prior.value.status == Succeeded {
      var row := prior.value;
      payload := payload.(outcome := MergeResult(Skipped, false, row.executedAt, row.pre, row.post, row.result,
                                                 Some(AlreadyMergedForCandidate)));
    } else {
      var outcome := ExecuteConstrainedMerge(tree, q.identity.targetRef, q.identity.sourceSha, q.identity.baseSha, io.now, io.merge);
      payload := payload.(outcome := outcome);
    }
    ok := store.PutMerge(MergeRowOf(q.job, q.identity, payload.outcome), io.mergeWrites);
  }

  method DispatchRollback(store: LedgerStore, tree: GitWorkTree?, q: Request, io: Io) returns (payload: RollbackPayload, ok: bool)
    requires Usable(tree)
    modifies store, tree
    ensures Usable(tree)
    ensures RollbackStep(store.Value(), ValueOf(tree), payload, ok) == DoRollback(old(store.Value()), old(ValueOf(tree)), q, io)
  {
    payload := RollbackPayload(q.rollbackTraceId, IdleRollback(RollbackNotRequestedOrNotEligible));
    if q.rollbackTraceId.None? {
      return payload.(outcome := payload.outcome.(error := Some(RollbackTraceIdRequired))), false;
    }
    var id := q.rollbackTraceId.value;
    var found := if io.traceReads then TraceById(store.Value(), id) else None;
    if found.None? {
      return payload.(outcome := payload.outcome.(error := Some(RollbackTraceNotFound))), false;
    }
    var trace := found.value;
    var verdict := Proceed;
    if !trace.eligible {
      verdict := Refuse(ReasonText(trace.reason));
    } else if OrBlank(trace.pre).Blank() || OrBlank(trace.post).Blank() {
      verdict := Refuse(TraceLinkageIncomplete);
    } else if trace.identity.repo != q.identity.repo {
      verdict := Refuse(TraceRepoMismatch);
    } else {
      var prior := Lookup(store.rollbacks, id, io.priorRollbackReads);
      if prior.Some? && prior.value.status == Succeeded { verdict := AlreadyDone(prior.value); }
    }
    assert verdict == CliVerdict(trace, q.identity.repo, Lookup(store.rollbacks, id, io.priorRollbackReads));
    var outcome := ActOn(tree, trace, verdict, io.now, io.revert);
    payload := payload.(outcome := outcome);
    ok := store.PutRollback(id, ReportOf(payload.outcome), io.rollbackWrites);
  }

  method ActOn(tree: GitWorkTree?, trace: Trace, verdict: Verdict, now: string, a: RevertAnswers) returns (r: RollbackResult)
    requires Usable(tree)
    modifies tree
    ensures Usable(tree)
    ensures (ValueOf(tree), r) == AttemptRollback(old(ValueOf(tree)), trace, verdict, now, a)
  {
    match verdict
    case Proceed =>
      r := ExecuteConstrainedRollback(tree, trace.identity.targetRef, ColumnText(trace.pre), ColumnText(trace.post), now, a);
    case Refuse(reason) => r := IdleRollback(reason);
    case AlreadyDone(row) =>
      r := RollbackResult(Skipped, false, row.attemptedAt, row.consistent, row.currentHead, row.result, Some(AlreadyRolledBackForTrace));
  }
}
