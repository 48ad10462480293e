/** What one dispatch leaves behind, table by table and field by field, said of the report and the tables alone. */
module DispatchAnswers {
  import opened Options
  import opened Git
  import opened Outcomes
  import opened GitCommands
  import opened Ledger
  import opened MergeExecutor
  import opened RollbackExecutor
  import opened Dispatch
  import opened ProtocolTheorems

  /** Null and blank alike. */
  function Rev0(r: Option<Rev>): Rev { match r case Some(v) => v case None => Text("") }

  /** The key and the row of a receipt, from its parts. */
  function ReceiptKey(k: CandidateKey, status: Status, at: Option<string>, result: Option<Rev>, error: Option<Reason>): AttemptKey {
    AttemptKey(k, status, match at case Some(v) => v case None => "", Rev0(result), match error case Some(v) => v case None => FreeText(""))
  }

  // ---- the parts of the run ----

  lemma RollbackTouchesRollbacksOnly(s: State, q: Request, io: Io)
    ensures var s' := RollbackPhase(s, q, io);
      && s'.tables.(rollbacks := s.tables.rollbacks) == s.tables
      && s'.report.(rollback := s.report.rollback, written := s.report.written) == s.report
      && s'.report.written.(rollback := s.report.written.rollback) == s.report.written
  {
  }

  lemma MergeTouchesMergesOnly(s: State, q: Request, io: Io)
    ensures var s' := MergePhase(s, q, io);
      && s'.tables.(merges := s.tables.merges) == s.tables
      && s'.report.(merge := s.report.merge, written := s.report.written) == s.report
      && s'.report.written.(merge := s.report.written.merge) == s.report.written
  {
  }

  /** Every part of the final state but the rollback is there after the receipt and the trace. */
  lemma Parts(l: Tables, t: Option<Checkout>, q: Request, io: Io)
    ensures var s, f := DispatchRun(l, t, q, io), FollowUpPhase(MergePhase(RecordPhase(l, t, q, io), q, io), q, io);
      && s.tables.(rollbacks := f.tables.rollbacks) == f.tables && f.tables.rollbacks == l.rollbacks
      && s.report.merge == f.report.merge && s.report.written.(rollback := f.report.written.rollback) == f.report.written
  {
    var s0 := RecordPhase(l, t, q, io);
    var s1 := MergePhase(s0, q, io);
    MergeTouchesMergesOnly(s0, q, io);
    FollowUpTouchesTwo(s1, q, io);
    RollbackTouchesRollbacksOnly(FollowUpPhase(s1, q, io), q, io);
  }

  lemma FollowUpTouchesTwo(s: State, q: Request, io: Io)
    ensures var s' := FollowUpPhase(s, q, io);
      && s'.tables.(receipts := s.tables.receipts, traces := s.tables.traces) == s.tables && s'.tree == s.tree
      && (s'.report.merge.Some? <==> s.report.merge.Some?) && s'.report.rollback == s.report.rollback
      && (s.report.merge.Some? ==> s'.report.merge.value.(trace := s.report.merge.value.trace) == s.report.merge.value)
      && s'.report.written.(receipt := s.report.written.receipt, trace := s.report.written.trace) == s.report.written
  {
    ReceiptTouchesOne(s.tables, s.report.merge, q, io);
    var m := s.report.merge;
    if m.Some? && m.value.candidate.Some? && s.report.written.merge {
      var (l, receipt) := ReceiptWrite(s.tables, m, q, io);
      TraceTouchesOne(l, m.value.candidate.value, receipt, io);
    }
  }

  lemma ReceiptTouchesOne(l: Tables, merge: Option<MergePayload>, q: Request, io: Io)
    ensures ReceiptWrite(l, merge, q, io).0.(receipts := l.receipts) == l
  {
  }

  lemma TraceTouchesOne(l: Tables, key: CandidateKey, receipt: Option<AttemptKey>, io: Io)
    ensures TraceWrite(l, key, receipt, io).tables.(traces := l.traces) == l
  {
  }

  // ---- job and target ----

  /** The job is recorded under its repository, and the target under the identity when the verdict passed. */
  lemma RecordAnswers(l: Tables, t: Option<Checkout>, q: Request, io: Io)
    ensures var s := DispatchRun(l, t, q, io);
      && s.tables.jobs == (if io.jobWrites then l.jobs[q.job := q.identity.repo] else l.jobs) && s.report.written.job == io.jobWrites
      && s.report.written.target == (q.candidate && q.HasIdentity() && io.targetWrites)
      && s.tables.targets == if s.report.written.target then l.targets[q.identity := Target(q.job, q.identity, true)] else l.targets
  {
    Parts(l, t, q, io);
    var s0 := RecordPhase(l, t, q, io);
    MergeTouchesMergesOnly(s0, q, io);
    FollowUpTouchesTwo(MergePhase(s0, q, io), q, io);
  }

  // ---- merge ----

  /** The candidate is named exactly when its target was found. */
  predicate Named(targets: map<CandidateKey, Target>, q: Request, io: Io) {
    q.HasIdentity() && io.targetReads && q.identity in targets
  }

  lemma MergeStepAnswers(l: Tables, t: Option<Checkout>, q: Request, io: Io)
    requires forall k :: k in l.targets ==> l.targets[k].identity == k
    ensures var m := DoMerge(l, t, q, io);
      var o := m.payload.outcome;
      if !Named(l.targets, q, io) then
        && o == MergeResult(Skipped, false, None, None, None, None,
                            Some(if q.HasIdentity() then ExecutionTargetNotPersisted else ExecutionTargetIdentityMissing))
        && m.payload.candidate == None && m.payload.trace == TraceNote(false, None, o.error, None)
        && !m.written && m.tables == l && m.tree == t
      else
        && m.payload.candidate == Some(q.identity) && m.payload.trace == TraceNote(false, None, None, None)
        && m.written == (io.mergeWrites && q.identity.Complete())
        && m.tables == (if m.written then l.(merges := l.merges[q.identity :=
             MergeRow(q.job, q.identity, o.status, o.attemptedAt, o.preMergeSha, o.postMergeSha, o.mergeResultSha, o.error)]) else l)
        && if io.priorReads && q.identity in l.merges && l.merges[q.identity].status == Succeeded then
             var row := l.merges[q.identity];
             && o == MergeResult(Skipped, false, row.executedAt, row.pre, row.post, row.result, Some(AlreadyMergedForCandidate))
             && m.tree == t
           else
             (m.tree, o) == ConstrainedMerge(t, q.identity.targetRef, q.identity.sourceSha, q.identity.baseSha, io.now, io.merge)
  {
  }

  /** What the dispatch reports of a merge, and the row it leaves: the outcome reported is the one on record. */
  lemma MergeIsReported(l: Tables, t: Option<Checkout>, q: Request, io: Io)
    requires Linked(l)
    ensures var s := DispatchRun(l, t, q, io);
      if !q.executeMerge then s.report.merge == None && s.tables.merges == l.merges && !s.report.written.merge
      else
        && s.report.merge.Some?
        && var o := s.report.merge.value.outcome;
        if !Named(s.tables.targets, q, io) then
          && s.report.merge.value.candidate == None && s.tables.merges == l.merges && !s.report.written.merge
          && o == MergeResult(Skipped, false, None, None, None, None,
                              Some(if q.HasIdentity() then ExecutionTargetNotPersisted else ExecutionTargetIdentityMissing))
        else
          && s.report.merge.value.candidate == Some(q.identity)
          && s.report.written.merge == (io.mergeWrites && q.identity.Complete())
          && s.tables.merges == (if s.report.written.merge then l.merges[q.identity :=
               MergeRow(q.job, q.identity, o.status, o.attemptedAt, o.preMergeSha, o.postMergeSha, o.mergeResultSha, o.error)] else l.merges)
          && o == if io.priorReads && q.identity in l.merges && l.merges[q.identity].status == Succeeded
                  then MergeResult(Skipped, false, l.merges[q.identity].executedAt, l.merges[q.identity].pre, l.merges[q.identity].post,
                                   l.merges[q.identity].result, Some(AlreadyMergedForCandidate))
                  else ConstrainedMerge(t, q.identity.targetRef, q.identity.sourceSha, q.identity.baseSha, io.now, io.merge).1
  {
    var s0 := RecordPhase(l, t, q, io);
    RecordLeavesRest(l, t, q, io);
    MergeTouchesMergesOnly(s0, q, io);
    FollowUpTouchesTwo(MergePhase(s0, q, io), q, io);
    MergeStepAnswers(s0.tables, t, q, io);
    Parts(l, t, q, io);
  }

  // ---- receipt ----

  /** Whether a receipt can be written for this request. */
  predicate Receivable(targets: map<CandidateKey, Target>, q: Request, io: Io) {
    q.identity.Complete() && q.identity in targets && io.receiptWrites
  }

  /** The receipts after writing one for these values: a row under the key of the values, and no other change. */
  predicate Receipted(before: map<AttemptKey, Receipt>, after: map<AttemptKey, Receipt>, q: Request, v: Signal) {
    after == before[ReceiptKey(q.identity, v.status, v.at, v.result, v.error) := Receipt(q.job, q.identity, q.identity, v)]
  }

  lemma ReceiptWriteAnswers(l: Tables, merge: Option<MergePayload>, q: Request, io: Io)
    requires forall k :: k in l.targets ==> l.targets[k].identity == k
    ensures var (l', key) := ReceiptWrite(l, merge, q, io);
      if Receivable(l.targets, q, io) && merge.Some? && merge.value.candidate.Some? then
        var o := merge.value.outcome;
        key.Some? && Receipted(l.receipts, l'.receipts, q, Signal(o.status, o.attemptedAt, o.mergeResultSha, o.error))
      else if Receivable(l.targets, q, io) && q.adapterSignal.Some? then
        key.Some? && Receipted(l.receipts, l'.receipts, q, q.adapterSignal.value)
      else key.None? && l'.receipts == l.receipts
  {
  }

  lemma TraceWriteLeavesReceipts(l: Tables, merge: Option<MergePayload>, written: Persistence, q: Request, io: Io)
    ensures var f := ReceiptAndTrace(l, merge, written, q, io);
      var (l', key) := ReceiptWrite(l, merge, q, io);
      f.tables.receipts == l'.receipts && f.written.receipt == key.Some?
  {
  }

  /** The one receipt of a dispatch: of the outcome it reports, when a merge was tried for a named candidate, else of the
      adapter's signal, if any; under the key of those very values, with all other receipts as they were. */
  lemma ReceiptIsWritten(l: Tables, t: Option<Checkout>, q: Request, io: Io)
    requires Linked(l)
    ensures var s := DispatchRun(l, t, q, io);
      var m := s.report.merge;
      if Receivable(s.tables.targets, q, io) && m.Some? && m.value.candidate.Some? then
        var o := m.value.outcome;
        && s.report.written.receipt
        && Receipted(l.receipts, s.tables.receipts, q, Signal(o.status, o.attemptedAt, o.mergeResultSha, o.error))
      else if Receivable(s.tables.targets, q, io) && q.adapterSignal.Some? then
        s.report.written.receipt && Receipted(l.receipts, s.tables.receipts, q, q.adapterSignal.value)
      else
        !s.report.written.receipt && s.tables.receipts == l.receipts
  {
    var s0 := RecordPhase(l, t, q, io);
    var s1 := MergePhase(s0, q, io);
    RecordLeavesRest(l, t, q, io);
    MergeTouchesMergesOnly(s0, q, io);
    FollowUpTouchesTwo(s1, q, io);
    ReceiptWriteAnswers(s1.tables, s1.report.merge, q, io);
    TraceWriteLeavesReceipts(s1.tables, s1.report.merge, s1.report.written, q, io);
    Parts(l, t, q, io);
  }

  /** So a merge that was tried and could be recorded never goes without its receipt. */
  lemma TriedMergeHasReceipt(l: Tables, t: Option<Checkout>, q: Request, io: Io)
    requires Linked(l) && q.executeMerge && Named(DispatchRun(l, t, q, io).tables.targets, q, io)
    requires q.identity.Complete() && io.receiptWrites
    ensures var s := DispatchRun(l, t, q, io);
      && s.report.written.receipt && s.report.merge.Some?
      && exists key :: key in s.tables.receipts && s.tables.receipts[key].signal.status == s.report.merge.value.outcome.status
           && s.tables.receipts[key].identity == q.identity && s.tables.receipts[key].job == q.job
  {
    MergeIsReported(l, t, q, io);
    ReceiptIsWritten(l, t, q, io);
    var s := DispatchRun(l, t, q, io);
    var o := s.report.merge.value.outcome;
    assert ReceiptKey(q.identity, o.status, o.attemptedAt, o.mergeResultSha, o.error) in s.tables.receipts;
  }

  // ---- trace ----

  /** The trace a merge row gives rise to, from its columns. */
  predicate TraceSays(tr: Trace, k: CandidateKey, target: Target, row: MergeRow, receipt: Option<AttemptKey>, at: nat) {
    && tr.id == TraceId(k, Rev0(row.pre), Rev0(row.post)) && tr.job == target.job && tr.identity == target.identity
    && tr.mergeStatus == row.status && tr.pre == row.pre && tr.post == row.post && tr.result == row.result
    && tr.receipt == receipt && tr.recordedAt == at
    && (tr.eligible <==> row.status == Succeeded && Rev0(row.pre) != Text("") && Rev0(row.post) != Text(""))
    && tr.reason == if tr.eligible then None
                    else if row.status != Succeeded then Some(MergeExecutionNotSucceeded)
                    else Some(MergeExecutionLinkageIncomplete)
  }

  lemma TraceStepAnswers(l: Tables, key: CandidateKey, receipt: Option<AttemptKey>, io: Io)
    requires key in l.targets && key in l.merges
    ensures var s := TraceWrite(l, key, receipt, io);
      && s.written == io.traceWrites
      && if !io.traceWrites then s.tables == l && s.note == TraceNote(false, Some(false), Some(RollbackTracePersistenceFailed), None)
         else
           && key in s.tables.traces && s.tables.traces == l.traces[key := s.tables.traces[key]]
           && TraceSays(s.tables.traces[key], key, l.targets[key], l.merges[key], receipt, io.recordedAt)
           && s.note == TraceNote(true, Some(s.tables.traces[key].eligible), s.tables.traces[key].reason, Some(s.tables.traces[key].id))
  {
    var s := TraceWrite(l, key, receipt, io);
    if io.traceWrites { assert s.tables.traces == l.traces[key := DeriveTrace(key, l.targets[key], l.merges[key], receipt, io.recordedAt)]; }
  }

  lemma FollowUpAnswers(l: Tables, merge: Option<MergePayload>, written: Persistence, q: Request, io: Io)
    requires merge.Some? && merge.value.candidate == Some(q.identity) && written.merge
    requires q.identity in l.targets && q.identity in l.merges && l.targets[q.identity].identity == q.identity && q.identity.Complete()
    ensures var f := ReceiptAndTrace(l, merge, written, q, io);
      var o := merge.value.outcome;
      var receipt := if io.receiptWrites then Some(ReceiptKey(q.identity, o.status, o.attemptedAt, o.mergeResultSha, o.error)) else None;
      && f.merge.Some? && f.written.trace == io.traceWrites
      && if !io.traceWrites then
           f.tables.traces == l.traces && f.merge.value.trace == TraceNote(false, Some(false), Some(RollbackTracePersistenceFailed), None)
         else
           && q.identity in f.tables.traces && f.tables.traces == l.traces[q.identity := f.tables.traces[q.identity]]
           && TraceSays(f.tables.traces[q.identity], q.identity, l.targets[q.identity], l.merges[q.identity], receipt, io.recordedAt)
           && f.merge.value.trace == TraceNote(true, Some(f.tables.traces[q.identity].eligible), f.tables.traces[q.identity].reason,
                                               Some(f.tables.traces[q.identity].id))
  {
    ReceiptLeavesRest(l, merge, q, io);
    var (l', receipt) := ReceiptWrite(l, merge, q, io);
    TraceStepAnswers(l', q.identity, receipt, io);
  }

  lemma NoFollowUpTrace(l: Tables, merge: Option<MergePayload>, written: Persistence, q: Request, io: Io)
    requires merge.None? || merge.value.candidate.None? || !written.merge
    ensures var f := ReceiptAndTrace(l, merge, written, q, io);
      f.tables.traces == l.traces && f.merge == merge && f.written.trace == written.trace
  {
    ReceiptLeavesRest(l, merge, q, io);
  }

  /** The trace of a dispatch: derived exactly when the merge row was written just before, from that row and with that
      receipt; the report repeats it. */
  lemma TraceIsDerived(l: Tables, t: Option<Checkout>, q: Request, io: Io)
    requires Linked(l)
    ensures var s := DispatchRun(l, t, q, io);
      var k := q.identity;
      if !s.report.written.merge then s.tables.traces == l.traces && !s.report.written.trace
      else
        && s.report.merge.Some? && s.report.written.trace == io.traceWrites
        && var o := s.report.merge.value.outcome;
        var receipt := if io.receiptWrites then Some(ReceiptKey(k, o.status, o.attemptedAt, o.mergeResultSha, o.error)) else None;
        if !io.traceWrites then
          s.tables.traces == l.traces && s.report.merge.value.trace == TraceNote(false, Some(false), Some(RollbackTracePersistenceFailed), None)
        else
          && k in s.tables.traces && k in s.tables.targets && k in s.tables.merges && s.tables.traces == l.traces[k := s.tables.traces[k]]
          && TraceSays(s.tables.traces[k], k, s.tables.targets[k], s.tables.merges[k], receipt, io.recordedAt)
          && s.report.merge.value.trace ==
               TraceNote(true, Some(s.tables.traces[k].eligible), s.tables.traces[k].reason, Some(s.tables.traces[k].id))
  {
    var s0 := RecordPhase(l, t, q, io);
    var s1 := MergePhase(s0, q, io);
    RecordLeavesRest(l, t, q, io);
    MergeTouchesMergesOnly(s0, q, io);
    MergeStepAnswers(s0.tables, t, q, io);
    FollowUpTouchesTwo(s1, q, io);
    Parts(l, t, q, io);
    if s1.report.written.merge {
      FollowUpAnswers(s1.tables, s1.report.merge, s1.report.written, q, io);
    } else {
      NoFollowUpTrace(s1.tables, s1.report.merge, s1.report.written, q, io);
    }
  }

  // ---- rollback ----

  /** A result that never reached git. */
  function Idle(reason: Reason): RollbackResult { RollbackResult(Skipped, false, None, false, None, None, Some(reason)) }

  predicate Blank0(r: Option<Rev>) { Rev0(r) == Text("") }

  /** The row a rollback outcome leaves for a trace; columns of the trace that are null become the text None. */
  predicate RowSays(row: RollbackRow, tr: Trace, o: RollbackResult) {
    && row.candidate == tr.id.candidate && row.job == tr.job && row.repo == tr.identity.repo && row.targetRef == tr.identity.targetRef
    && row.pre == (match tr.pre case Some(v) => v case None => Text("None"))
    && row.post == (match tr.post case Some(v) => v case None => Text("None"))
    && row.status == o.status && row.attemptedAt == o.attemptedAt && row.currentHead == o.currentHeadSha
    && row.result == o.rollbackResultSha && row.error == o.error && row.consistent == o.consistent
  }

  /** The answer to a rollback request, first obstacle first. */
  predicate RollbackAnswer(tr: Trace, repo: string, prior: Option<RollbackRow>, t: Option<Checkout>, o: RollbackResult,
                           t': Option<Checkout>, io: Io)
  {
    if !tr.eligible then t' == t && o == Idle(match tr.reason case Some(v) => v case None => FreeText("None"))
    else if Blank0(tr.pre) || Blank0(tr.post) then t' == t && o == Idle(TraceLinkageIncomplete)
    else if tr.identity.repo != repo then t' == t && o == Idle(TraceRepoMismatch)
    else if prior.Some? && prior.value.status == Succeeded then
      t' == t && o == RollbackResult(Skipped, false, prior.value.attemptedAt, prior.value.consistent, prior.value.currentHead,
                                     prior.value.result, Some(AlreadyRolledBackForTrace))
    else (t', o) == ConstrainedRollback(t, tr.identity.targetRef, tr.pre.value, tr.post.value, io.now, io.revert)
  }

  /** Traces and rows a request finds, and what it answers and leaves. */
  predicate RollbackDone(traces: map<CandidateKey, Trace>, rows: map<TraceId, RollbackRow>, t: Option<Checkout>, q: Request, io: Io,
                         o: RollbackResult, rows': map<TraceId, RollbackRow>, t': Option<Checkout>, written: bool)
  {
    if q.rollbackTraceId.None? then rows' == rows && t' == t && !written && o == Idle(RollbackTraceIdRequired)
    else
      var id := q.rollbackTraceId.value;
      if !io.traceReads || id.candidate !in traces || traces[id.candidate].id != id then
        rows' == rows && t' == t && !written && o == Idle(RollbackTraceNotFound)
      else
        var tr := traces[id.candidate];
        && written == io.rollbackWrites
        && RollbackAnswer(tr, q.identity.repo, if io.priorRollbackReads && id in rows then Some(rows[id]) else None, t, o, t', io)
        && if !written then rows' == rows else id in rows' && rows' == rows[id := rows'[id]] && RowSays(rows'[id], tr, o)
  }

  lemma RowIs(tr: Trace, o: RollbackResult)
    ensures RowSays(RollbackRowOf(tr, ReportOf(o)), tr, o)
  {
  }

  lemma AttemptAnswers(tr: Trace, repo: string, prior: Option<RollbackRow>, t: Option<Checkout>, io: Io)
    ensures var (t', o) := AttemptRollback(t, tr, CliVerdict(tr, repo, prior), io.now, io.revert);
      RollbackAnswer(tr, repo, prior, t, o, t', io)
  {
  }

  lemma RowIsWritten(l: Tables, id: TraceId, o: RollbackResult, works: bool)
    requires TraceById(l, id).Some?
    ensures var (l', ok) := Committed(l, RecordRollback(l, id, ReportOf(o)), works);
      && ok == works && l' == l.(rollbacks := l'.rollbacks)
      && l'.rollbacks == if works then l.rollbacks[id := RollbackRowOf(l.traces[id.candidate], ReportOf(o))] else l.rollbacks
  {
  }

  lemma RollbackStepAnswers(l: Tables, t: Option<Checkout>, q: Request, io: Io)
    ensures var r := DoRollback(l, t, q, io);
      && r.payload.traceId == q.rollbackTraceId && r.tables == l.(rollbacks := r.tables.rollbacks)
      && RollbackDone(l.traces, l.rollbacks, t, q, io, r.payload.outcome, r.tables.rollbacks, r.tree, r.written)
  {
    if q.rollbackTraceId.Some? && io.traceReads && TraceById(l, q.rollbackTraceId.value).Some? {
      FoundStepAnswers(l, t, q, io);
    }
  }

  lemma FoundStepAnswers(l: Tables, t: Option<Checkout>, q: Request, io: Io)
    requires q.rollbackTraceId.Some? && io.traceReads && TraceById(l, q.rollbackTraceId.value).Some?
    ensures var r := DoRollback(l, t, q, io);
      && r.payload.traceId == q.rollbackTraceId && r.tables == l.(rollbacks := r.tables.rollbacks)
      && RollbackDone(l.traces, l.rollbacks, t, q, io, r.payload.outcome, r.tables.rollbacks, r.tree, r.written)
  {
    var id, r := q.rollbackTraceId.value, DoRollback(l, t, q, io);
    var tr := l.traces[id.candidate];
    AttemptAnswers(tr, q.identity.repo, Lookup(l.rollbacks, id, io.priorRollbackReads), t, io);
    RowIsWritten(l, id, r.payload.outcome, io.rollbackWrites);
    RowIs(tr, r.payload.outcome);
  }

  /** The rollback part of a dispatch, said of the traces on record after its own merge. */
  lemma RollbackIsReported(l: Tables, t: Option<Checkout>, q: Request, io: Io)
    ensures var s := DispatchRun(l, t, q, io);
      var t1 := MergePhase(RecordPhase(l, t, q, io), q, io).tree;
      if !q.executeRollback then s.report.rollback == None && s.tables.rollbacks == l.rollbacks && s.tree == t1 && !s.report.written.rollback
      else
        && s.report.rollback.Some? && s.report.rollback.value.traceId == q.rollbackTraceId
        && RollbackDone(s.tables.traces, l.rollbacks, t1, q, io, s.report.rollback.value.outcome, s.tables.rollbacks, s.tree,
                        s.report.written.rollback)
  {
    var s2 := FollowUpPhase(MergePhase(RecordPhase(l, t, q, io), q, io), q, io);
    Parts(l, t, q, io);
    NothingWrittenYet(l, t, q, io);
    RollbackPhaseAnswers(s2, q, io);
  }

  lemma RollbackPhaseAnswers(s: State, q: Request, io: Io)
    ensures var s' := RollbackPhase(s, q, io);
      if !q.executeRollback then s' == s
      else
        && s'.report.rollback.Some? && s'.report.rollback.value.traceId == q.rollbackTraceId
        && s'.tables == s.tables.(rollbacks := s'.tables.rollbacks)
        && RollbackDone(s.tables.traces, s.tables.rollbacks, s.tree, q, io, s'.report.rollback.value.outcome, s'.tables.rollbacks, s'.tree,
                        s'.report.written.rollback)
  {
    RollbackStepAnswers(s.tables, s.tree, q, io);
  }

  lemma NothingWrittenYet(l: Tables, t: Option<Checkout>, q: Request, io: Io)
    ensures var s := FollowUpPhase(MergePhase(RecordPhase(l, t, q, io), q, io), q, io);
      s.report.rollback == None && !s.report.written.rollback && s.tree == MergePhase(RecordPhase(l, t, q, io), q, io).tree
  {
    var s0 := RecordPhase(l, t, q, io);
    MergeTouchesMergesOnly(s0, q, io);
    FollowUpTouchesTwo(MergePhase(s0, q, io), q, io);
  }
}
