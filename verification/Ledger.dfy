/** orchestrator/ledger.py: six tables with upserts. A SHA-256 of newline-joined fields is taken
    to be the fields themselves; module LedgerKeys says for which fields that is right. */
module Ledger {
  import opened Options
  import opened Git
  import opened Outcomes

  datatype Identity = Identity(repo: string, targetRef: string, sourceSha: Rev, baseSha: Rev) {
    predicate Complete() {
      repo != "" && targetRef != "" && !sourceSha.Blank() && !baseSha.Blank()
    }
  }

  /** Null and empty text give the same key material. */
  function OrBlank(r: Option<Rev>): Rev { if r.Some? then r.value else Text("") }
  function OrNoText(s: Option<string>): string { if s.Some? then s.value else "" }
  function OrNoError(e: Option<Reason>): Reason { if e.Some? then e.value else FreeText("") }

  type CandidateKey = Identity
  datatype AttemptKey = AttemptKey(candidate: CandidateKey, status: Status, at: string, result: Rev, error: Reason)
  datatype TraceId = TraceId(candidate: CandidateKey, pre: Rev, post: Rev)

  function CandidateKeyOf(id: Identity): CandidateKey { id }
  function TraceIdOf(key: CandidateKey, pre: Option<Rev>, post: Option<Rev>): TraceId {
    TraceId(key, OrBlank(pre), OrBlank(post))
  }

  datatype Signal = Signal(status: Status, at: Option<string>, result: Option<Rev>, error: Option<Reason>)

  function AttemptKeyOf(key: CandidateKey, s: Signal): AttemptKey {
    AttemptKey(key, s.status, OrNoText(s.at), OrBlank(s.result), OrNoError(s.error))
  }

  datatype Target = Target(job: string, identity: Identity, gatePassed: bool)
  datatype Receipt = Receipt(job: string, identity: Identity, candidate: CandidateKey, signal: Signal)
  datatype MergeRow = MergeRow(job: string, identity: Identity, status: Status, executedAt: Option<string>,
    pre: Option<Rev>, post: Option<Rev>, result: Option<Rev>, error: Option<Reason>)
  datatype Trace = Trace(id: TraceId, job: string, identity: Identity, mergeStatus: Status,
    pre: Option<Rev>, post: Option<Rev>, result: Option<Rev>, receipt: Option<AttemptKey>,
    eligible: bool, reason: Option<Reason>, recordedAt: nat)
  datatype RollbackRow = RollbackRow(candidate: CandidateKey, job: string, repo: string, targetRef: string,
    pre: Rev, post: Rev, status: Status, attemptedAt: Option<string>, currentHead: Option<Rev>,
    result: Option<Rev>, error: Option<Reason>, consistent: bool)

  /** `jobs` keeps the repo column; receipts are keyed by their attempt, whose digest is the receipt id;
      traces are keyed by candidate (unique), and each trace id contains its candidate. */
  datatype Tables = Tables(
    jobs: map<string, string>,
    targets: map<CandidateKey, Target>,
    receipts: map<AttemptKey, Receipt>,
    merges: map<CandidateKey, MergeRow>,
    traces: map<CandidateKey, Trace>,
    rollbacks: map<TraceId, RollbackRow>)

  const EMPTY := Tables(map[], map[], map[], map[], map[], map[])

  // ---- what each record_* call does to the tables; None is an exception, and nothing is written ----

  function RecordJob(l: Tables, job: string, repo: string): Tables {
    l.(jobs := l.jobs[job := repo])
  }

  function RecordTarget(l: Tables, job: string, id: Identity, gatePassed: bool): Tables {
    l.(targets := l.targets[CandidateKeyOf(id) := Target(job, id, gatePassed)])
  }

  function RecordReceipt(l: Tables, job: string, id: Identity, s: Signal): Option<Tables> {
    var key := CandidateKeyOf(id);
    if !id.Complete() || key !in l.targets || l.targets[key].identity != id then None
    else Some(l.(receipts := l.receipts[AttemptKeyOf(key, s) := Receipt(job, id, key, s)]))
  }

  function RecordMerge(l: Tables, row: MergeRow): Option<Tables> {
    if !row.identity.Complete() then None
    else Some(l.(merges := l.merges[CandidateKeyOf(row.identity) := row]))
  }

  /** Why a merge row does not support a rollback. */
  function IneligibleReason(m: MergeRow): Option<Reason> {
    if m.status != Succeeded then Some(MergeExecutionNotSucceeded)
    else if OrBlank(m.pre).Blank() || OrBlank(m.post).Blank() then Some(MergeExecutionLinkageIncomplete)
    else None
  }

  function DeriveTrace(key: CandidateKey, t: Target, m: MergeRow, receipt: Option<AttemptKey>, at: nat): Trace {
    Trace(TraceIdOf(key, m.pre, m.post), t.job, t.identity, m.status, m.pre, m.post, m.result, receipt,
          IneligibleReason(m).None?, IneligibleReason(m), at)
  }

  function RecordTrace(l: Tables, key: CandidateKey, receipt: Option<AttemptKey>, at: nat): Option<Tables> {
    if key !in l.targets || key !in l.merges then None
    else Some(l.(traces := l.traces[key := DeriveTrace(key, l.targets[key], l.merges[key], receipt, at)]))
  }

  /** A null column read back through str() becomes the text None. */
  function ColumnText(r: Option<Rev>): Rev { if r.Some? then r.value else Text("None") }

  datatype RollbackReport = RollbackReport(status: Status, attemptedAt: Option<string>, currentHead: Option<Rev>,
    result: Option<Rev>, error: Option<Reason>, consistent: bool)

  function RollbackRowOf(t: Trace, r: RollbackReport): RollbackRow {
    RollbackRow(t.id.candidate, t.job, t.identity.repo, t.identity.targetRef, ColumnText(t.pre), ColumnText(t.post),
                r.status, r.attemptedAt, r.currentHead, r.result, r.error, r.consistent)
  }

  function RecordRollback(l: Tables, id: TraceId, r: RollbackReport): Option<Tables> {
    var t := TraceById(l, id);
    if t.None? then None
    else Some(l.(rollbacks := l.rollbacks[id := RollbackRowOf(t.value, r)]))
  }

  function TraceById(l: Tables, id: TraceId): Option<Trace> {
    if id.candidate in l.traces && l.traces[id.candidate].id == id then Some(l.traces[id.candidate]) else None
  }

  /** Re-recording an attempt touches one receipt only, and the same attempt always the same one. */
  lemma ReceiptsStayPut(l: Tables, job: string, id: Identity, s: Signal, other: AttemptKey)
    requires RecordReceipt(l, job, id, s).Some?
    ensures var l' := RecordReceipt(l, job, id, s).value;
      && l'.(receipts := l.receipts) == l
      && (other != AttemptKeyOf(CandidateKeyOf(id), s) ==>
            (other in l'.receipts <==> other in l.receipts) && (other in l.receipts ==> l'.receipts[other] == l.receipts[other]))
      && RecordReceipt(l', job, id, s) == Some(l')
  {
    var l' := RecordReceipt(l, job, id, s).value;
    var again := RecordReceipt(l', job, id, s).value;
    assert again.receipts == l'.receipts;
  }

  // ---- linkage between tables ----

  predicate TraceOk(l: Tables, k: CandidateKey, t: Trace) {
    && k == CandidateKeyOf(t.identity) && t.id == TraceIdOf(k, t.pre, t.post)
    && k in l.targets && k in l.merges
    && (t.eligible <==> t.reason == None)
    && (t.eligible ==> t.mergeStatus == Succeeded && !OrBlank(t.pre).Blank() && !OrBlank(t.post).Blank())
  }

  predicate ReceiptOk(l: Tables, k: AttemptKey, r: Receipt) {
    k == AttemptKeyOf(CandidateKeyOf(r.identity), r.signal) && r.candidate == k.candidate && k.candidate in l.targets
  }

  /** Every key is the key of its row's own fields; a receipt and a trace have a target, a trace has a
      merge row, a rollback row's candidate has a trace; a trace is eligible iff it gives no reason. */
  ghost predicate Linked(l: Tables) {
    && (forall k :: k in l.targets ==> k == CandidateKeyOf(l.targets[k].identity))
    && (forall k :: k in l.merges ==> k == CandidateKeyOf(l.merges[k].identity) && k in l.targets)
    && (forall k :: k in l.receipts ==> ReceiptOk(l, k, l.receipts[k]))
    && (forall k :: k in l.traces ==> TraceOk(l, k, l.traces[k]))
    && (forall i :: i in l.rollbacks ==> l.rollbacks[i].candidate == i.candidate && i.candidate in l.traces)
  }

  lemma TargetKeepsLinks(l: Tables, job: string, id: Identity, gatePassed: bool)
    requires Linked(l)
    ensures Linked(RecordTarget(l, job, id, gatePassed))
  {
  }

  lemma ReceiptKeepsLinks(l: Tables, job: string, id: Identity, s: Signal)
    requires Linked(l) && RecordReceipt(l, job, id, s).Some?
    ensures Linked(RecordReceipt(l, job, id, s).value)
  {
  }

  lemma MergeKeepsLinks(l: Tables, row: MergeRow)
    requires Linked(l) && RecordMerge(l, row).Some? && CandidateKeyOf(row.identity) in l.targets
    ensures Linked(RecordMerge(l, row).value)
  {
  }

  lemma TraceKeepsLinks(l: Tables, key: CandidateKey, receipt: Option<AttemptKey>, at: nat)
    requires Linked(l) && RecordTrace(l, key, receipt, at).Some?
    ensures Linked(RecordTrace(l, key, receipt, at).value)
  {
    var l' := RecordTrace(l, key, receipt, at).value;
    assert TraceOk(l', key, l'.traces[key]);
  }

  lemma RollbackKeepsLinks(l: Tables, id: TraceId, r: RollbackReport)
    requires Linked(l) && RecordRollback(l, id, r).Some?
    ensures Linked(RecordRollback(l, id, r).value)
  {
    assert TraceOk(l, id.candidate, l.traces[id.candidate]);
  }

  // ---- the store itself ----

  class LedgerStore {
    var jobs: map<string, string>
    var targets: map<CandidateKey, Target>
    var receipts: map<AttemptKey, Receipt>
    var merges: map<CandidateKey, MergeRow>
    var traces: map<CandidateKey, Trace>
    var rollbacks: map<TraceId, RollbackRow>

    function Value(): Tables reads this { Tables(jobs, targets, receipts, merges, traces, rollbacks) }

    constructor ()
      ensures Value() == EMPTY
    {
      jobs, targets, receipts, merges, traces, rollbacks := map[], map[], map[], map[], map[], map[];
    }

    /** A write is one transaction: it commits as a whole (`ok`) or leaves the tables alone. */
    method PutJob(job: string, repo: string, commits: bool) returns (ok: bool)
      modifies this
      ensures ok == commits
      ensures Value() == if ok then RecordJob(old(Value()), job, repo) else old(Value())
    {
      if commits { jobs := jobs[job := repo]; }
      return commits;
    }

    method PutTarget(job: string, id: Identity, gatePassed: bool, commits: bool) returns (ok: bool)
      modifies this
      ensures ok == commits
      ensures Value() == if ok then RecordTarget(old(Value()), job, id, gatePassed) else old(Value())
    {
      if commits { targets := targets[CandidateKeyOf(id) := Target(job, id, gatePassed)]; }
      return commits;
    }

    method PutReceipt(job: string, id: Identity, s: Signal, commits: bool) returns (receipt: Option<AttemptKey>)
      modifies this
      ensures receipt.Some? == (commits && RecordReceipt(old(Value()), job, id, s).Some?)
      ensures receipt.Some? ==> receipt.value == AttemptKeyOf(CandidateKeyOf(id), s)
      ensures Value() == if receipt.Some? then RecordReceipt(old(Value()), job, id, s).value else old(Value())
    {
      if !id.Complete() { return None; }
      var key := CandidateKeyOf(id);
      if key !in targets || targets[key].identity != id || !commits { return None; }
      var attempt := AttemptKeyOf(key, s);
      receipts := receipts[attempt := Receipt(job, id, key, s)];
      return Some(attempt);
    }

    method PutMerge(row: MergeRow, commits: bool) returns (ok: bool)
      modifies this
      ensures ok == (commits && RecordMerge(old(Value()), row).Some?)
      ensures Value() == if ok then RecordMerge(old(Value()), row).value else old(Value())
    {
      if !row.identity.Complete() || !commits { return false; }
      merges := merges[CandidateKeyOf(row.identity) := row];
      return true;
    }

    method PutTrace(key: CandidateKey, receipt: Option<AttemptKey>, at: nat, commits: bool) returns (trace: Option<Trace>)
      modifies this
      ensures trace.Some? == (commits && RecordTrace(old(Value()), key, receipt, at).Some?)
      ensures Value() == if trace.Some? then RecordTrace(old(Value()), key, receipt, at).value else old(Value())
      ensures trace.Some? ==> key in traces && trace.value == traces[key]
    {
      if key !in targets || key !in merges || !commits { return None; }
      var m := merges[key];
      var eligible, reason := false, None;
      if m.status != Succeeded {
        reason := Some(MergeExecutionNotSucceeded);
      } else if OrBlank(m.pre).Blank() || OrBlank(m.post).Blank() {
        reason := Some(MergeExecutionLinkageIncomplete);
      } else {
        eligible := true;
      }
      var t := targets[key];
      var row := Trace(TraceIdOf(key, m.pre, m.post), t.job, t.identity, m.status, m.pre, m.post, m.result,
                       receipt, eligible, reason, at);
      traces := traces[key := row];
      return Some(row);
    }

    method PutRollback(id: TraceId, r: RollbackReport, commits: bool) returns (ok: bool)
      modifies this
      ensures ok == (commits && RecordRollback(old(Value()), id, r).Some?)
      ensures Value() == if ok then RecordRollback(old(Value()), id, r).value else old(Value())
    {
      var t := TraceById(Value(), id);
      if t.None? || !commits { return false; }
      rollbacks := rollbacks[id := RollbackRowOf(t.value, r)];
      return true;
    }
  }
}
