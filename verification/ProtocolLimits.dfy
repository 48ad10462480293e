/** Concrete runs that mark the edge of the protocol's guarantees: a merge that is rolled back, a
    candidate merged twice over two checkouts, and one merged twice after HEAD was reset. */
module ProtocolLimits {
  import opened Options
  import opened Git
  import opened Outcomes
  import opened GitCommands
  import opened Ledger
  import opened MergeExecutor
  import opened RollbackExecutor
  import opened Dispatch
  import opened OperatorDecision
  import opened ProtocolRuns
  import opened ProtocolTheorems
  import opened ProtocolRecords

  const BASE := Commit([], map["file" := 0], 0)
  const SOURCE := Commit([BASE], map["file" := 1], 1)
  /** The merge commit git makes at this moment. */
  function MergeAt(stamp: nat): Commit { Commit([BASE, SOURCE], map["file" := 1], stamp) }
  const MAIN := "refs/heads/main"
  const AT_BASE: Checkout := WorkTree(MAIN, map[MAIN := BASE])
  const CANDIDATE := Identity("repo", MAIN, Id(SOURCE), Id(BASE))
  function TraceOf(stamp: nat): TraceId { TraceId(CANDIDATE, Id(BASE), Id(MergeAt(stamp))) }

  const REQUEST := Request("job", CANDIDATE, true, true, false, None, None)
  const REVERT := RevertAnswers(true, true, true, true, RevertRuns(9), true, "")

  function IoAt(stamp: nat): Io {
    Io(true, true, true, true, true, true, true, true, true, true,
       MergeAnswers(true, true, true, true, None, true, MergeCommits(map["file" := 1], stamp), true, ""), REVERT, "now", 0)
  }

  function OperatorIoAt(stamp: nat): OperatorIo {
    OperatorIo(true, true, true, true, true, RevertAnswers(true, true, true, true, RevertRuns(stamp), true, ""), "later")
  }

  /** The revert commit git makes of that merge. */
  function UndoAt(stamp: nat, undo: nat): Commit { Commit([MergeAt(stamp)], BASE.tree, undo) }

  lemma NothingRefusesAtBase(stamp: nat)
    ensures MergeRefusal(AT_BASE, MAIN, Id(SOURCE), Id(BASE), IoAt(stamp).merge) == None
    ensures Head(AT_BASE) == BASE && NormalizeRef(MAIN) == MAIN
  {
    assert NormalizeRef(MAIN) == MAIN;
    AncestorOfRoot(SOURCE);
  }

  lemma AncestorOfRoot(c: Commit)
    requires c != BASE
    ensures !Ancestor(c, BASE)
  {
  }

  function MergedResult(stamp: nat): MergeResult {
    MergeResult(Succeeded, true, Some("now"), Some(Id(BASE)), Some(Id(MergeAt(stamp))), Some(Id(MergeAt(stamp))), None)
  }

  function PayloadOf(stamp: nat): MergePayload {
    MergePayload(MergedResult(stamp), Some(CANDIDATE), TraceNote(false, None, None, None))
  }

  lemma MergeFromBase(l: Tables, stamp: nat)
    requires CANDIDATE in l.targets && l.targets[CANDIDATE].identity == CANDIDATE
    requires CANDIDATE in l.merges ==> l.merges[CANDIDATE].status != Succeeded
    ensures DoMerge(l, Some(AT_BASE), REQUEST, IoAt(stamp)) ==
      MergeStep(l.(merges := l.merges[CANDIDATE := MergeRowOf("job", CANDIDATE, MergedResult(stamp))]), Some(Advance(AT_BASE, MergeAt(stamp))), PayloadOf(stamp), true)
  {
    NothingRefusesAtBase(stamp);
    assert Head(Advance(AT_BASE, MergeAt(stamp))) == MergeAt(stamp);
  }

  /** A dispatch on a checkout at the base merges, unless the ledger still says succeeded. */
  lemma FreshDispatchMerges(w: World, path: string, stamp: nat)
    requires path in w.trees && w.trees[path] == AT_BASE
    requires CANDIDATE in w.tables.merges ==> w.tables.merges[CANDIDATE].status != Succeeded
    ensures var w' := Step(w, DispatchAt(path, REQUEST, IoAt(stamp)));
      && w'.log == w.log + [Merged(path, CANDIDATE, BASE, MergeAt(stamp))]
      && w'.trees == w.trees[path := Advance(AT_BASE, MergeAt(stamp))]
      && CANDIDATE in w'.tables.merges && w'.tables.merges[CANDIDATE].status == Succeeded
      && TraceById(w'.tables, TraceOf(stamp)).Some? && TraceById(w'.tables, TraceOf(stamp)).value.eligible
      && w'.tables.rollbacks == w.tables.rollbacks
  {
    var s0 := RecordPhase(w.tables, TreeAt(w, path), REQUEST, IoAt(stamp));
    RecordedTarget(w.tables, TreeAt(w, path), stamp);
    MergeFromBase(s0.tables, stamp);
    assert Head(Advance(AT_BASE, MergeAt(stamp))) == MergeAt(stamp) && Head(AT_BASE) == BASE;
    var report := MergePhase(s0, REQUEST, IoAt(stamp)).report;
    TraceFollows(s0.tables.(merges := s0.tables.merges[CANDIDATE := MergeRowOf("job", CANDIDATE, MergedResult(stamp))]), PayloadOf(stamp), report.written, stamp);
  }

  lemma RecordedTarget(l: Tables, t: Option<Checkout>, stamp: nat)
    ensures var s := RecordPhase(l, t, REQUEST, IoAt(stamp)).tables;
      && s.targets == l.targets[CANDIDATE := Target("job", CANDIDATE, true)]
      && s.merges == l.merges && s.rollbacks == l.rollbacks
  {
  }

  lemma TraceFollows(l: Tables, merge: MergePayload, written: Persistence, stamp: nat)
    requires written.merge && merge.candidate == Some(CANDIDATE)
    requires CANDIDATE in l.targets && l.targets[CANDIDATE].identity == CANDIDATE && CANDIDATE in l.merges
    ensures var f := ReceiptAndTrace(l, Some(merge), written, REQUEST, IoAt(stamp)).tables;
      && f.merges == l.merges && f.rollbacks == l.rollbacks
      && CANDIDATE in f.traces && f.traces[CANDIDATE].identity == CANDIDATE
      && f.traces[CANDIDATE].id == TraceIdOf(CANDIDATE, l.merges[CANDIDATE].pre, l.merges[CANDIDATE].post)
      && (f.traces[CANDIDATE].eligible <==> IneligibleReason(l.merges[CANDIDATE]) == None)
  {
    var (l', receipt) := ReceiptWrite(l, Some(merge), REQUEST, IoAt(stamp));
    ReceiptLeavesRest(l, Some(merge), REQUEST, IoAt(stamp));
    assert l'.rollbacks == l.rollbacks;
    var step := TraceWrite(l', CANDIDATE, receipt, IoAt(stamp));
    assert step.tables == l'.(traces := l'.traces[CANDIDATE :=
      DeriveTrace(CANDIDATE, l'.targets[CANDIDATE], l'.merges[CANDIDATE], receipt, 0)]);
  }

  // The same two facts about reachable worlds, without naming the step.

  lemma FreshReach(w: World, path: string, stamp: nat) returns (w': World)
    requires Reachable(w) && path in w.trees && w.trees[path] == AT_BASE
    requires CANDIDATE in w.tables.merges ==> w.tables.merges[CANDIDATE].status != Succeeded
    ensures Reachable(w')
    ensures w'.log == w.log + [Merged(path, CANDIDATE, BASE, MergeAt(stamp))] && w'.trees == w.trees[path := Advance(AT_BASE, MergeAt(stamp))]
    ensures CANDIDATE in w'.tables.merges && w'.tables.merges[CANDIDATE].status == Succeeded
    ensures TraceById(w'.tables, TraceOf(stamp)).Some? && TraceById(w'.tables, TraceOf(stamp)).value.eligible
    ensures w'.tables.rollbacks == w.tables.rollbacks
  {
    FreshDispatchMerges(w, path, stamp);
    ReachableStep(w, DispatchAt(path, REQUEST, IoAt(stamp)));
    w' := Step(w, DispatchAt(path, REQUEST, IoAt(stamp)));
  }

  lemma DuplicateReach(w: World, path: string) returns (w': World)
    requires Reachable(w) && CANDIDATE in w.tables.merges && w.tables.merges[CANDIDATE].status == Succeeded
    ensures Reachable(w') && w'.log == w.log && w'.trees == w.trees
    ensures CANDIDATE in w'.tables.merges ==> w'.tables.merges[CANDIDATE].status != Succeeded
  {
    ReachableInv(w);
    w' := Duplicate(w, path, REQUEST, IoAt(0));
  }

  lemma Duplicate(w: World, path: string, q: Request, io: Io) returns (w': World)
    requires Reachable(w) && Linked(w.tables)
    requires q.identity.Complete() && q.executeMerge && !q.executeRollback && AllWell(io)
    requires q.identity in w.tables.merges && w.tables.merges[q.identity].status == Succeeded
    ensures Reachable(w') && w'.log == w.log && w'.trees == w.trees
    ensures q.identity in w'.tables.merges && w'.tables.merges[q.identity].status == Skipped
  {
    DuplicateMovesNothing(w, path, q, io);
    DuplicateErasesEligibility(w.tables, TreeAt(w, path), q, io);
    StepRunsDispatch(w, path, q, io);
    ReachableStep(w, DispatchAt(path, q, io));
    w' := Step(w, DispatchAt(path, q, io));
  }

  /** Each checkout keeps its promise, but the ledger does not stop a second checkout: the second
      dispatch is refused as already merged, and by being recorded it lets the third one merge again. */
  lemma OneCandidateTwoCheckouts(first: nat, second: nat) returns (w: World)
    requires first != second
    ensures Reachable(w)
    ensures w.log == [Merged("a", CANDIDATE, BASE, MergeAt(first)), Merged("b", CANDIDATE, BASE, MergeAt(second))]
    ensures w.log[0].after != w.log[1].after
  {
    w := MergedAndForgotten("a", map["a" := AT_BASE, "b" := AT_BASE], first);
    w := FreshReach(w, "b", second);
  }

  /** The assumption on outside moves is needed: after a duplicate, one reset of HEAD to the base (which is
      no legal outside move) and the same checkout merges the same candidate a second time. */
  lemma ResetMergesAgain(first: nat, second: nat) returns (w: World, w': World, again: Event)
    requires first != second
    ensures Reachable(w) && w' == Step(w, Outside(map["a" := AT_BASE])) && !Legal(w, Outside(map["a" := AT_BASE]))
    ensures again.DispatchAt? && again.q.identity == CANDIDATE
    ensures Step(w', again).log == [Merged("a", CANDIDATE, BASE, MergeAt(first)), Merged("a", CANDIDATE, BASE, MergeAt(second))]
    ensures MergeAt(first) != MergeAt(second)
  {
    w := MergedAndForgotten("a", map["a" := AT_BASE], first);
    assert w.trees == map["a" := Advance(AT_BASE, MergeAt(first))];
    ResetIsIllegal(w, first);
    w' := World(w.tables, map["a" := AT_BASE], w.log);
    again := FreshEvent(w', "a", second);
  }

  lemma MergedAndForgotten(path: string, trees: map<string, Checkout>, stamp: nat) returns (w: World)
    requires path in trees && trees[path] == AT_BASE
    ensures Reachable(w) && w.trees == trees[path := Advance(AT_BASE, MergeAt(stamp))]
    ensures w.log == [Merged(path, CANDIDATE, BASE, MergeAt(stamp))]
    ensures CANDIDATE in w.tables.merges ==> w.tables.merges[CANDIDATE].status != Succeeded
  {
    w := World(EMPTY, trees, []);
    StartReachable(w);
    w := FreshReach(w, path, stamp);
    w := DuplicateReach(w, path);
  }

  lemma FreshEvent(w: World, path: string, stamp: nat) returns (e: Event)
    requires path in w.trees && w.trees[path] == AT_BASE
    requires CANDIDATE in w.tables.merges ==> w.tables.merges[CANDIDATE].status != Succeeded
    ensures e.DispatchAt? && e.q.identity == CANDIDATE
    ensures Step(w, e).log == w.log + [Merged(path, CANDIDATE, BASE, MergeAt(stamp))]
  {
    FreshDispatchMerges(w, path, stamp);
    e := DispatchAt(path, REQUEST, IoAt(stamp));
  }

  lemma ResetIsIllegal(w: World, stamp: nat)
    requires w.trees == map["a" := Advance(AT_BASE, MergeAt(stamp))]
    ensures !Legal(w, Outside(map["a" := AT_BASE]))
    ensures Step(w, Outside(map["a" := AT_BASE])) == World(w.tables, map["a" := AT_BASE], w.log)
  {
    AncestorOfRoot(MergeAt(stamp));
    assert "a" in w.trees && Head(w.trees["a"]) == MergeAt(stamp) && Head(AT_BASE) == BASE;
  }

  predicate OnRecord(l: Tables, id: TraceId) { TraceById(l, id).Some? && TraceById(l, id).value.eligible }

  /** The operator rolls an eligible merge at HEAD back. */
  lemma RollbackReach(w: World, path: string, stamp: nat, undo: nat) returns (w': World)
    requires Reachable(w) && path in w.trees && w.trees[path] == Advance(AT_BASE, MergeAt(stamp))
    requires OnRecord(w.tables, TraceOf(stamp)) && !SaysSucceeded(w.tables, TraceOf(stamp))
    ensures Reachable(w') && w'.log == w.log + [Reverted(path, TraceOf(stamp), MergeAt(stamp), UndoAt(stamp, undo))]
    ensures w'.trees == w.trees[path := Advance(w.trees[path], UndoAt(stamp, undo))]
    ensures OnRecord(w'.tables, TraceOf(stamp)) && SaysSucceeded(w'.tables, TraceOf(stamp))
  {
    ReachableInv(w);
    var id, io := TraceOf(stamp), OperatorIoAt(undo);
    var trace := TraceById(w.tables, id).value;
    assert TraceOk(w.tables, CANDIDATE, trace);
    HealthyRollback(trace, stamp, undo);
    var t := w.trees[path];
    assert OperatorVerdict(trace, Lookup(w.tables.rollbacks, id, true)) == Proceed;
    ReachableStep(w, OperatorAt(path, ByTrace(id), Rollback, io));
    w' := AfterDecision(w, path, ByTrace(id), Rollback, io);
    RollbackIsRecorded(w.tables, Some(t), trace, io);
    DecisionLeavesTraces(w, path, ByTrace(id), Rollback, io);
  }

  lemma RollbackIsRecorded(l: Tables, t: Option<Checkout>, trace: Trace, io: OperatorIo)
    requires TraceById(l, trace.id) == Some(trace) && io.traceReads && io.rollbackWrites
    ensures var s := OperatorRun(l, t, ByTrace(trace.id), Rollback, io);
      var v := OperatorVerdict(trace, Lookup(l.rollbacks, trace.id, io.priorReads));
      var a := AttemptRollback(t, trace, v, io.now, io.revert);
      s.tree == a.0 && (SaysSucceeded(s.tables, trace.id) <==> a.1.status == Succeeded)
  {
  }

  lemma HealthyRollback(trace: Trace, stamp: nat, undo: nat)
    requires trace.id == TraceOf(stamp) && trace.identity == CANDIDATE && trace.pre == Some(Id(BASE)) && trace.post == Some(Id(MergeAt(stamp)))
    ensures AttemptRollback(Some(Advance(AT_BASE, MergeAt(stamp))), trace, Proceed, "later", OperatorIoAt(undo).revert).0
         == Some(Advance(Advance(AT_BASE, MergeAt(stamp)), UndoAt(stamp, undo)))
    ensures AttemptRollback(Some(Advance(AT_BASE, MergeAt(stamp))), trace, Proceed, "later", OperatorIoAt(undo).revert).1.status == Succeeded
  {
    NothingRefusesAtBase(stamp);
    var t := Advance(AT_BASE, MergeAt(stamp));
    assert Head(t) == MergeAt(stamp) && MergeAt(stamp).parents[0] == BASE;
    assert BASE.tree["file"] == 0 && MergeAt(stamp).tree["file"] == 1;
    UndoOnTop(MergeAt(stamp).tree, BASE.tree);
    RollbackSucceedsExactly(t, MAIN, Id(BASE), Id(MergeAt(stamp)), "later", OperatorIoAt(undo).revert);
  }

  /** The guarantees are not empty: a dispatch merges, and the operator rolls exactly that merge back. */
  lemma MergeThenRollback(stamp: nat, undo: nat) returns (w: World)
    ensures Reachable(w)
    ensures w.log == [Merged("a", CANDIDATE, BASE, MergeAt(stamp)), Reverted("a", TraceOf(stamp), MergeAt(stamp), UndoAt(stamp, undo))]
    ensures "a" in w.trees && Head(w.trees["a"]).tree == BASE.tree
  {
    w := World(EMPTY, map["a" := AT_BASE], []);
    StartReachable(w);
    w := FreshReach(w, "a", stamp);
    w := RollbackReach(w, "a", stamp, undo);
  }

  /** A second decision on the same trace finds it done, moves nothing, and forgets that it was. */
  lemma RollbackAgain(w: World, path: string, id: TraceId, io: OperatorIo) returns (w': World)
    requires Reachable(w) && OnRecord(w.tables, id) && SaysSucceeded(w.tables, id)
    requires io.traceReads && io.priorReads && io.rollbackWrites
    ensures Reachable(w') && w'.log == w.log && w'.trees == w.trees
    ensures OnRecord(w'.tables, id) && !SaysSucceeded(w'.tables, id)
  {
    var e := OperatorAt(path, ByTrace(id), Rollback, io);
    ReachableStep(w, e);
    w' := Step(w, e);
    DecisionLogsIff(w, path, ByTrace(id), Rollback, io);
    NoSilentMoves(w, e);
    DecisionLeavesTraces(w, path, ByTrace(id), Rollback, io);
    DecisionRowSurvivesIff(w.tables, TreeAt(w, path), ByTrace(id), Rollback, io, id);
  }

  /** Somebody pulls the merge into the other clone: a legal outside move. */
  lemma PullReach(w: World, path: string, stamp: nat) returns (w': World)
    requires Reachable(w) && path in w.trees && w.trees[path] == AT_BASE
    ensures Reachable(w') && w' == w.(trees := w.trees[path := Advance(AT_BASE, MergeAt(stamp))])
  {
    var trees := w.trees[path := Advance(AT_BASE, MergeAt(stamp))];
    assert Ancestor(BASE, MergeAt(stamp)) by { assert MergeAt(stamp).parents[0] == BASE && Ancestor(BASE, MergeAt(stamp).parents[0]); }
    ReachableStep(w, Outside(trees));
    w' := Step(w, Outside(trees));
  }

  /** Per checkout a trace is reverted once, but the ledger does not stop a second one: after a pull, a rollback in one
      clone and a duplicate of it, the other clone reverts the same trace again. */
  lemma OneTraceTwoCheckouts(stamp: nat, first: nat, second: nat) returns (w: World)
    requires first != second
    ensures Reachable(w)
    ensures w.log == [Merged("a", CANDIDATE, BASE, MergeAt(stamp)),
                      Reverted("a", TraceOf(stamp), MergeAt(stamp), UndoAt(stamp, first)),
                      Reverted("b", TraceOf(stamp), MergeAt(stamp), UndoAt(stamp, second))]
    ensures w.log[1].after != w.log[2].after
  {
    w := MergedInBoth(stamp);
    w := UndoneAndForgotten(w, stamp, first);
    w := RollbackReach(w, "b", stamp, second);
  }

  lemma MergedInBoth(stamp: nat) returns (w: World)
    ensures Reachable(w) && w.log == [Merged("a", CANDIDATE, BASE, MergeAt(stamp))]
    ensures forall p :: p == "a" || p == "b" ==> p in w.trees && w.trees[p] == Advance(AT_BASE, MergeAt(stamp))
    ensures OnRecord(w.tables, TraceOf(stamp)) && !SaysSucceeded(w.tables, TraceOf(stamp))
  {
    w := World(EMPTY, map["a" := AT_BASE, "b" := AT_BASE], []);
    StartReachable(w);
    w := FreshReach(w, "a", stamp);
    w := PullReach(w, "b", stamp);
  }

  lemma UndoneAndForgotten(w: World, stamp: nat, undo: nat) returns (w': World)
    requires Reachable(w) && "a" in w.trees && "b" in w.trees && w.trees["a"] == w.trees["b"] == Advance(AT_BASE, MergeAt(stamp))
    requires OnRecord(w.tables, TraceOf(stamp)) && !SaysSucceeded(w.tables, TraceOf(stamp))
    ensures Reachable(w') && w'.log == w.log + [Reverted("a", TraceOf(stamp), MergeAt(stamp), UndoAt(stamp, undo))]
    ensures "b" in w'.trees && w'.trees["b"] == Advance(AT_BASE, MergeAt(stamp))
    ensures OnRecord(w'.tables, TraceOf(stamp)) && !SaysSucceeded(w'.tables, TraceOf(stamp))
  {
    w' := RollbackReach(w, "a", stamp, undo);
    w' := RollbackAgain(w', "a", TraceOf(stamp), OperatorIoAt(undo));
  }

  // ---- authorisation is per candidate, not per dispatch ----

  /** A dispatch that only records its candidate. */
  lemma RecordOnly(w: World, path: string, q: Request, io: Io)
    requires !q.executeMerge && !q.executeRollback && q.adapterSignal.None?
    ensures Step(w, DispatchAt(path, q, io)) == w.(tables := RecordPhase(w.tables, TreeAt(w, path), q, io).tables)
  {
  }

  /** Its verdict once recorded, a candidate is merged by a later dispatch whose own verdict did not pass. */
  lemma LaterDispatchNeedsNoVerdict(stamp: nat) returns (w: World, e: Event)
    ensures Reachable(w) && w.log == []
    ensures e.DispatchAt? && !e.q.candidate && e.q.identity == CANDIDATE
    ensures Step(w, e).log == [Merged("a", CANDIDATE, BASE, MergeAt(stamp))]
  {
    w := World(EMPTY, map["a" := AT_BASE], []);
    StartReachable(w);
    var q := REQUEST.(executeMerge := false);
    RecordOnly(w, "a", q, IoAt(stamp));
    ReachableStep(w, DispatchAt("a", q, IoAt(stamp)));
    StepTargets(w, DispatchAt("a", q, IoAt(stamp)), CANDIDATE);
    w := Step(w, DispatchAt("a", q, IoAt(stamp)));
    ReachableInv(w);
    e := UnverifiedMerge(w, stamp);
  }

  lemma UnverifiedMerge(w: World, stamp: nat) returns (e: Event)
    requires Inv(w) && "a" in w.trees && w.trees["a"] == AT_BASE && CANDIDATE in w.tables.targets && CANDIDATE !in w.tables.merges
    ensures e.DispatchAt? && !e.q.candidate && e.q.identity == CANDIDATE
    ensures Step(w, e).log == w.log + [Merged("a", CANDIDATE, BASE, MergeAt(stamp))]
  {
    var q, io := REQUEST.(candidate := false), IoAt(stamp);
    e := DispatchAt("a", q, io);
    var s0 := RecordPhase(w.tables, TreeAt(w, "a"), q, io);
    RecordLeavesRest(w.tables, TreeAt(w, "a"), q, io);
    MergeFromBase(s0.tables, stamp);
    assert DoMerge(s0.tables, Some(AT_BASE), q, io) == DoMerge(s0.tables, Some(AT_BASE), REQUEST, io);
    assert Head(Advance(AT_BASE, MergeAt(stamp))) == MergeAt(stamp) && Head(AT_BASE) == BASE;
  }
}
