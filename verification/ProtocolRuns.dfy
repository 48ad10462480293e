/** Whole runs of the merge/rollback protocol: any sequence of dispatches, operator decisions and
    outside commits, over any number of checkouts that share one ledger. */
module ProtocolRuns {
  import opened Options
  import opened Git
  import opened Outcomes
  import opened GitCommands
  import opened Ledger
  import opened MergeExecutor
  import opened RollbackExecutor
  import opened Dispatch
  import opened OperatorDecision

  /** A movement of HEAD made by an executor. The log records what git did, not what was reported. */
  datatype Effect =
    | Merged(path: string, candidate: CandidateKey, before: Commit, after: Commit)
    | Reverted(path: string, trace: TraceId, before: Commit, after: Commit)

  /** `trees` maps repository paths to checkouts. */
  datatype World = World(tables: Tables, trees: map<string, Checkout>, log: seq<Effect>)

  datatype Event =
    | DispatchAt(path: string, q: Request, io: Io)
    | OperatorAt(path: string, sel: Selector, d: Decision, oio: OperatorIo)
    | Outside(trees: map<string, Checkout>)

  function TreeAt(w: World, path: string): Option<Checkout> {
    if path in w.trees then Some(w.trees[path]) else None
  }

  predicate Moved(t: Option<Checkout>, t': Option<Checkout>) {
    t.Some? && t'.Some? && Head(t.value) != Head(t'.value)
  }

  function RevertEffect(path: string, id: TraceId, t: Option<Checkout>, t': Option<Checkout>): seq<Effect> {
    if Moved(t, t') then [Reverted(path, id, Head(t.value), Head(t'.value))] else []
  }

  function MergeEffect(path: string, k: CandidateKey, t: Option<Checkout>, t': Option<Checkout>): seq<Effect> {
    if Moved(t, t') then [Merged(path, k, Head(t.value), Head(t'.value))] else []
  }

  function Put(w: World, path: string, l: Tables, t: Option<Checkout>, e: seq<Effect>): World {
    World(l, if t.Some? then w.trees[path := t.value] else w.trees, w.log + e)
  }

  // One dispatch is four ledger/git phases; a world exists between any two of them.

  function AfterMerge(w: World, path: string, q: Request, io: Io): World {
    if !q.executeMerge then w
    else
      var t := TreeAt(w, path);
      var m := DoMerge(w.tables, t, q, io);
      Put(w, path, m.tables, m.tree,
          MergeEffect(path, CandidateKeyOf(q.identity), t, m.tree))
  }

  function AfterRollback(w: World, path: string, q: Request, io: Io): World {
    if !q.executeRollback then w
    else
      var t := TreeAt(w, path);
      var r := DoRollback(w.tables, t, q, io);
      Put(w, path, r.tables, r.tree,
          if q.rollbackTraceId.Some? then RevertEffect(path, q.rollbackTraceId.value, t, r.tree) else [])
  }

  function AfterDecision(w: World, path: string, sel: Selector, d: Decision, io: OperatorIo): World {
    var t := TreeAt(w, path);
    var trace := ResolveTrace(w.tables, sel, io);
    var s := OperatorRun(w.tables, t, sel, d, io);
    Put(w, path, s.tables, s.tree,
        if trace.Some? then RevertEffect(path, trace.value.id, t, s.tree) else [])
  }

  function Step(w: World, e: Event): World {
    match e
    case DispatchAt(path, q, io) =>
      var recorded := RecordPhase(w.tables, TreeAt(w, path), q, io);
      var merged := AfterMerge(w.(tables := recorded.tables), path, q, io);
      var report := MergePhase(recorded, q, io).report;
      var followed := merged.(tables := ReceiptAndTrace(merged.tables, report.merge, report.written, q, io).tables);
      AfterRollback(followed, path, q, io)
    case OperatorAt(path, sel, d, io) => AfterDecision(w, path, sel, d, io)
    case Outside(trees) => w.(trees := trees)
  }

  lemma AfterMergeIsPhase(w: World, path: string, r: Report, q: Request, io: Io)
    ensures var s := MergePhase(State(w.tables, TreeAt(w, path), r), q, io);
      var w' := AfterMerge(w, path, q, io);
      w'.tables == s.tables && TreeAt(w', path) == s.tree
  {
  }

  lemma AfterRollbackIsPhase(w: World, path: string, r: Report, q: Request, io: Io)
    ensures var s := RollbackPhase(State(w.tables, TreeAt(w, path), r), q, io);
      var w' := AfterRollback(w, path, q, io);
      w'.tables == s.tables && TreeAt(w', path) == s.tree
  {
  }

  /** The step is the dispatch of module Dispatch, run on the tables and on the one checkout it names. */
  lemma StepRunsDispatch(w: World, path: string, q: Request, io: Io)
    ensures var s := DispatchRun(w.tables, TreeAt(w, path), q, io);
      var w' := Step(w, DispatchAt(path, q, io));
      w'.tables == s.tables && TreeAt(w', path) == s.tree
  {
    var s0 := RecordPhase(w.tables, TreeAt(w, path), q, io);
    var w0 := w.(tables := s0.tables);
    AfterMergeIsPhase(w0, path, s0.report, q, io);
    var s1 := MergePhase(s0, q, io);
    var w1 := AfterMerge(w0, path, q, io);
    var s2 := FollowUpPhase(s1, q, io);
    AfterRollbackIsPhase(w1.(tables := s2.tables), path, s2.report, q, io);
  }

  /** The assumption on everybody else: no checkout vanishes, and its HEAD only moves to a descendant. */
  predicate Advances(trees: map<string, Checkout>, trees': map<string, Checkout>) {
    forall p :: p in trees ==> p in trees' && Ancestor(Head(trees[p]), Head(trees'[p]))
  }

  ghost predicate Legal(w: World, e: Event) {
    match e
    case DispatchAt(_, _, _) => true
    case OperatorAt(_, sel, _, _) => sel.ByJob? ==> NewestFor(w.tables, sel.job, sel.newest)
    case Outside(trees) => Advances(w.trees, trees)
  }

  function Exec(w: World, es: seq<Event>): World
    decreases |es|
  {
    if es == [] then w else Exec(Step(w, es[0]), es[1..])
  }

  ghost predicate LegalRun(w: World, es: seq<Event>)
    decreases |es|
  {
    es == [] || (Legal(w, es[0]) && LegalRun(Step(w, es[0]), es[1..]))
  }

  ghost predicate Start(w: World) { w.tables == EMPTY && w.log == [] }

  ghost predicate Reachable(w: World) {
    exists w0, es :: Start(w0) && LegalRun(w0, es) && w == Exec(w0, es)
  }

  // ---- the invariant ----

  /** Merges put a two-parent commit on top of the candidate's base; reverts put a commit with the
      first parent's tree on top of the trace's merge commit. */
  ghost predicate EffectOk(e: Effect) {
    match e
    case Merged(_, k, before, after) =>
      k.baseSha == Id(before) && |after.parents| == 2 && after.parents[0] == before && !Ancestor(after.parents[1], before)
    case Reverted(_, id, before, after) =>
      id.post == Id(before) && before.parents != [] && after.parents == [before] && after.tree == before.parents[0].tree
  }

  ghost predicate HistoryOk(trees: map<string, Checkout>, log: seq<Effect>) {
    && (forall i :: 0 <= i < |log| ==>
          EffectOk(log[i]) && log[i].path in trees && Ancestor(log[i].after, Head(trees[log[i].path])))
    && (forall i, j :: 0 <= i < j < |log| && log[i].path == log[j].path ==> Ancestor(log[i].after, log[j].before))
  }

  /** Some executor run merged this candidate from `pre` to `post`. */
  ghost predicate MergeHappened(log: seq<Effect>, k: CandidateKey, pre: Option<Rev>, post: Option<Rev>) {
    exists i :: 0 <= i < |log| && log[i].Merged? && log[i].candidate == k
             && pre == Some(Id(log[i].before)) && post == Some(Id(log[i].after))
  }

  ghost predicate RevertHappened(log: seq<Effect>, id: TraceId) {
    exists i :: 0 <= i < |log| && log[i].Reverted? && log[i].trace == id
  }

  ghost predicate Truthful(l: Tables, log: seq<Effect>) {
    && (forall k :: k in l.merges && l.merges[k].status == Succeeded ==>
          MergeHappened(log, k, l.merges[k].pre, l.merges[k].post))
    && (forall k :: k in l.traces && l.traces[k].eligible ==>
          MergeHappened(log, k, l.traces[k].pre, l.traces[k].post))
    && (forall id :: id in l.rollbacks && l.rollbacks[id].status == Succeeded ==> RevertHappened(log, id))
    && (forall i :: 0 <= i < |log| && log[i].Reverted? ==>
          MergeHappened(log, log[i].trace.candidate, Some(log[i].trace.pre), Some(log[i].trace.post)))
  }

  ghost predicate Inv(w: World) {
    Linked(w.tables) && HistoryOk(w.trees, w.log) && Truthful(w.tables, w.log)
  }

  lemma StillHappened(log: seq<Effect>, e: seq<Effect>)
    ensures forall k, pre, post :: MergeHappened(log, k, pre, post) ==> MergeHappened(log + e, k, pre, post)
    ensures forall id :: RevertHappened(log, id) ==> RevertHappened(log + e, id)
  {
    forall k, pre, post | MergeHappened(log, k, pre, post)
      ensures MergeHappened(log + e, k, pre, post)
    {
      var i :| 0 <= i < |log| && log[i].Merged? && log[i].candidate == k && pre == Some(Id(log[i].before)) && post == Some(Id(log[i].after));
      assert (log + e)[i] == log[i];
    }
    forall id | RevertHappened(log, id)
      ensures RevertHappened(log + e, id)
    {
      var i :| 0 <= i < |log| && log[i].Reverted? && log[i].trace == id;
      assert (log + e)[i] == log[i];
    }
  }

  /** History grows by one child of the HEAD it names. */
  lemma HistoryExtends(trees: map<string, Checkout>, log: seq<Effect>, path: string, t: Checkout, e: Effect)
    requires HistoryOk(trees, log) && EffectOk(e)
    requires path in trees && e.path == path && e.before == Head(trees[path]) && e.after == Head(t)
    ensures HistoryOk(trees[path := t], log + [e])
  {
    assert e.before in e.after.parents && Ancestor(e.before, e.after);
    var trees', log' := trees[path := t], log + [e];
    forall i | 0 <= i < |log'|
      ensures EffectOk(log'[i]) && log'[i].path in trees' && Ancestor(log'[i].after, Head(trees'[log'[i].path]))
    {
      if i < |log| && log[i].path == path {
        AncestorTransitive(log[i].after, e.before, e.after);
      }
    }
  }

  // ---- every phase keeps the invariant ----

  lemma RecordKeeps(w: World, q: Request, io: Io, t: Option<Checkout>)
    requires Inv(w)
    ensures Inv(w.(tables := RecordPhase(w.tables, t, q, io).tables))
  {
    var l1 := Committed(w.tables, Some(RecordJob(w.tables, q.job, q.identity.repo)), io.jobWrites).0;
    assert Linked(l1) && Truthful(l1, w.log);
    TargetKeepsLinks(l1, q.job, q.identity, true);
  }

  /** The log grows by `e`, the merge table by at most one truthful row. */
  lemma MergeRowStaysTruthful(l: Tables, log: seq<Effect>, e: seq<Effect>, row: MergeRow)
    requires Truthful(l, log) && (forall i :: 0 <= i < |e| ==> e[i].Merged?)
    requires row.status == Succeeded ==> MergeHappened(log + e, CandidateKeyOf(row.identity), row.pre, row.post)
    ensures Truthful(l, log + e)
    ensures Truthful(l.(merges := l.merges[CandidateKeyOf(row.identity) := row]), log + e)
  {
    StillHappened(log, e);
    assert forall i :: 0 <= i < |log + e| && (log + e)[i].Reverted? ==> i < |log| && (log + e)[i] == log[i];
  }

  /** What one merge attempt does to history: at most one merge effect, and a succeeded row is backed by one. */
  lemma AttemptExtendsHistory(w: World, path: string, id: Identity, io: Io)
    requires Inv(w)
    ensures var t := TreeAt(w, path);
      var (t', r) := AttemptMerge(w.tables, t, id, io);
      var e := MergeEffect(path, CandidateKeyOf(id), t, t');
      && HistoryOk(Put(w, path, w.tables, t', e).trees, w.log + e)
      && (r.status == Succeeded ==> MergeHappened(w.log + e, CandidateKeyOf(id), r.preMergeSha, r.postMergeSha))
  {
    var t := TreeAt(w, path);
    var (t', r) := AttemptMerge(w.tables, t, id, io);
    var e := MergeEffect(path, CandidateKeyOf(id), t, t');
    if t.Some? {
      MergeMovesHeadExactly(t.value, id.targetRef, id.sourceSha, id.baseSha, io.now, io.merge);
      SucceededMeansMoved(t.value, id.targetRef, id.sourceSha, id.baseSha, io.now, io.merge);
    }
    if Moved(t, t') {
      HistoryExtends(w.trees, w.log, path, t'.value, e[0]);
      assert (w.log + e)[|w.log|] == e[0];
    } else {
      assert Put(w, path, w.tables, t', e).trees == w.trees;
      assert w.log + e == w.log;
    }
  }

  lemma MergeKeeps(w: World, path: string, q: Request, io: Io)
    requires Inv(w)
    ensures Inv(AfterMerge(w, path, q, io))
  {
    if q.executeMerge && MergeStop(w.tables, q, io).None? {
      var t := TreeAt(w, path);
      var (t', r) := AttemptMerge(w.tables, t, q.identity, io);
      var row := MergeRowOf(q.job, q.identity, r);
      AttemptExtendsHistory(w, path, q.identity, io);
      MergeRowStaysTruthful(w.tables, w.log, MergeEffect(path, CandidateKeyOf(q.identity), t, t'), row);
      if RecordMerge(w.tables, row).Some? { MergeKeepsLinks(w.tables, row); }
    } else {
      assert AfterMerge(w, path, q, io) == w;
    }
  }

  lemma FollowUpKeeps(w: World, merge: Option<MergePayload>, written: Persistence, q: Request, io: Io)
    requires Inv(w)
    ensures Inv(w.(tables := ReceiptAndTrace(w.tables, merge, written, q, io).tables))
  {
    var (l, receipt) := ReceiptWrite(w.tables, merge, q, io);
    if ReceiptSignal(merge, q).Some? && RecordReceipt(w.tables, q.job, q.identity, ReceiptSignal(merge, q).value).Some? {
      ReceiptKeepsLinks(w.tables, q.job, q.identity, ReceiptSignal(merge, q).value);
    }
    assert Linked(l) && Truthful(l, w.log);
    if merge.Some? && merge.value.candidate.Some? {
      TraceWriteKeeps(l, w.log, merge.value.candidate.value, receipt, io);
    }
  }

  lemma TraceWriteKeeps(l: Tables, log: seq<Effect>, key: CandidateKey, receipt: Option<AttemptKey>, io: Io)
    requires Linked(l) && Truthful(l, log)
    ensures Linked(TraceWrite(l, key, receipt, io).tables) && Truthful(TraceWrite(l, key, receipt, io).tables, log)
  {
    if RecordTrace(l, key, receipt, io.recordedAt).Some? {
      TraceKeepsLinks(l, key, receipt, io.recordedAt);
    }
  }

  /** What a rollback does to history: at most one revert, of a merge that an executor made. */
  lemma ActingExtendsHistory(w: World, path: string, id: TraceId, v: Verdict, now: string, a: RevertAnswers)
    requires Inv(w) && TraceById(w.tables, id).Some?
    requires v == Proceed ==> TraceById(w.tables, id).value.eligible
    ensures var t := TreeAt(w, path);
      var (t', r) := AttemptRollback(t, TraceById(w.tables, id).value, v, now, a);
      var e := RevertEffect(path, id, t, t');
      && HistoryOk(Put(w, path, w.tables, t', e).trees, w.log + e)
      && (e != [] ==> MergeHappened(w.log, id.candidate, Some(id.pre), Some(id.post)))
      && (r.status == Succeeded ==> RevertHappened(w.log + e, id))
  {
    var t := TreeAt(w, path);
    var trace := TraceById(w.tables, id).value;
    assert TraceOk(w.tables, id.candidate, trace);
    var (t', r) := AttemptRollback(t, trace, v, now, a);
    var e := RevertEffect(path, id, t, t');
    if t.Some? && v == Proceed {
      RollbackRestoresFirstParent(t.value, trace.identity.targetRef, ColumnText(trace.pre), ColumnText(trace.post), now, a);
      assert MergeHappened(w.log, id.candidate, trace.pre, trace.post);
    }
    if Moved(t, t') {
      HistoryExtends(w.trees, w.log, path, t'.value, e[0]);
      assert (w.log + e)[|w.log|] == e[0];
    } else {
      assert Put(w, path, w.tables, t', e).trees == w.trees;
      assert w.log + e == w.log;
    }
  }

  /** Shared by both entry points: acting on a trace that is on record, past its eligibility check. */
  lemma ActingKeeps(w: World, path: string, id: TraceId, v: Verdict, now: string, a: RevertAnswers, l': Tables)
    requires Inv(w) && TraceById(w.tables, id).Some?
    requires v == Proceed ==> TraceById(w.tables, id).value.eligible
    requires var r := AttemptRollback(TreeAt(w, path), TraceById(w.tables, id).value, v, now, a).1;
      l' == w.tables || Some(l') == RecordRollback(w.tables, id, ReportOf(r))
    ensures var t := TreeAt(w, path);
      var t' := AttemptRollback(t, TraceById(w.tables, id).value, v, now, a).0;
      Inv(Put(w, path, l', t', RevertEffect(path, id, t, t')))
  {
    ActingExtendsHistory(w, path, id, v, now, a);
    var t := TreeAt(w, path);
    var (t', r) := AttemptRollback(t, TraceById(w.tables, id).value, v, now, a);
    RollbackKeepsLinks(w.tables, id, ReportOf(r));
    RollbackRowStaysTruthful(w.tables, w.log, RevertEffect(path, id, t, t'), id, ReportOf(r));
  }

  lemma RollbackRowStaysTruthful(l: Tables, log: seq<Effect>, e: seq<Effect>, id: TraceId, r: RollbackReport)
    requires Truthful(l, log) && (forall i :: 0 <= i < |e| ==> e[i].Reverted? && e[i].trace == id)
    requires e != [] ==> MergeHappened(log, id.candidate, Some(id.pre), Some(id.post))
    requires r.status == Succeeded ==> RevertHappened(log + e, id)
    ensures Truthful(l, log + e)
    ensures RecordRollback(l, id, r).Some? ==> Truthful(RecordRollback(l, id, r).value, log + e)
  {
    StillHappened(log, e);
    forall i | 0 <= i < |log + e| && (log + e)[i].Reverted?
      ensures MergeHappened(log + e, (log + e)[i].trace.candidate, Some((log + e)[i].trace.pre), Some((log + e)[i].trace.post))
    {
      if i < |log| { assert (log + e)[i] == log[i]; } else { assert (log + e)[i] == e[i - |log|]; }
    }
  }

  lemma RollbackKeeps(w: World, path: string, q: Request, io: Io)
    requires Inv(w)
    ensures Inv(AfterRollback(w, path, q, io))
  {
    if q.executeRollback {
      var t := TreeAt(w, path);
      var r := DoRollback(w.tables, t, q, io);
      if q.rollbackTraceId.Some? && io.traceReads && TraceById(w.tables, q.rollbackTraceId.value).Some? {
        var id := q.rollbackTraceId.value;
        var trace := TraceById(w.tables, id).value;
        var v := CliVerdict(trace, q.identity.repo, Lookup(w.tables.rollbacks, id, io.priorRollbackReads));
        ActingKeeps(w, path, id, v, io.now, io.revert, r.tables);
      } else {
        assert AfterRollback(w, path, q, io) == w;
      }
    }
  }

  lemma DecisionKeeps(w: World, path: string, sel: Selector, d: Decision, io: OperatorIo)
    requires Inv(w)
    ensures Inv(AfterDecision(w, path, sel, d, io))
  {
    var trace := ResolveTrace(w.tables, sel, io);
    if d.Rollback? && trace.Some? {
      var v := OperatorVerdict(trace.value, Lookup(w.tables.rollbacks, trace.value.id, io.priorReads));
      assert TraceById(w.tables, trace.value.id) == trace;
      var s := OperatorRun(w.tables, TreeAt(w, path), sel, d, io);
      ActingKeeps(w, path, trace.value.id, v, io.now, io.revert, s.tables);
    } else {
      assert AfterDecision(w, path, sel, d, io) == w;
    }
  }

  lemma OutsideKeeps(w: World, trees: map<string, Checkout>)
    requires Inv(w) && Advances(w.trees, trees)
    ensures Inv(w.(trees := trees))
  {
    forall i | 0 <= i < |w.log|
      ensures w.log[i].path in trees && Ancestor(w.log[i].after, Head(trees[w.log[i].path]))
    {
      var p := w.log[i].path;
      AncestorTransitive(w.log[i].after, Head(w.trees[p]), Head(trees[p]));
    }
  }

  lemma StepKeeps(w: World, e: Event)
    requires Inv(w) && Legal(w, e)
    ensures Inv(Step(w, e))
  {
    match e
    case DispatchAt(path, q, io) =>
      var recorded := RecordPhase(w.tables, TreeAt(w, path), q, io);
      RecordKeeps(w, q, io, TreeAt(w, path));
      var w0 := w.(tables := recorded.tables);
      MergeKeeps(w0, path, q, io);
      var w1 := AfterMerge(w0, path, q, io);
      var report := MergePhase(recorded, q, io).report;
      FollowUpKeeps(w1, report.merge, report.written, q, io);
      var w2 := w1.(tables := ReceiptAndTrace(w1.tables, report.merge, report.written, q, io).tables);
      RollbackKeeps(w2, path, q, io);
    case OperatorAt(path, sel, d, io) => DecisionKeeps(w, path, sel, d, io);
    case Outside(trees) => OutsideKeeps(w, trees);
  }

  lemma {:induction false} RunKeeps(w: World, es: seq<Event>)
    requires Inv(w) && LegalRun(w, es)
    ensures Inv(Exec(w, es))
    decreases |es|
  {
    if es != [] {
      StepKeeps(w, es[0]);
      RunKeeps(Step(w, es[0]), es[1..]);
    }
  }

  lemma ReachableInv(w: World)
    requires Reachable(w)
    ensures Inv(w)
  {
    var w0, es :| Start(w0) && LegalRun(w0, es) && w == Exec(w0, es);
    RunKeeps(w0, es);
  }

  lemma {:induction false} ExecAppends(w: World, es: seq<Event>, e: Event)
    requires LegalRun(w, es) && Legal(Exec(w, es), e)
    ensures LegalRun(w, es + [e]) && Exec(w, es + [e]) == Step(Exec(w, es), e)
    decreases |es|
  {
    if es == [] {
      assert [e][1..] == [];
      assert LegalRun(Step(w, e), []);
    } else {
      ExecAppends(Step(w, es[0]), es[1..], e);
      assert (es + [e])[1..] == es[1..] + [e];
    }
  }

  lemma ReachableStep(w: World, e: Event)
    requires Reachable(w) && Legal(w, e)
    ensures Reachable(Step(w, e))
  {
    var w0, es :| Start(w0) && LegalRun(w0, es) && w == Exec(w0, es);
    ExecAppends(w0, es, e);
  }

  lemma StartReachable(w: World)
    requires Start(w)
    ensures Reachable(w)
  {
    assert LegalRun(w, []) && Exec(w, []) == w;
  }
}
