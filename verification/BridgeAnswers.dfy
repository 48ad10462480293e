/** What each post does to the bridge's document, said of the words posted and the fields read. */
module BridgeAnswers {
  import opened Options
  import opened Text
  import opened Bridge
  import opened BridgeAtomic
  import BridgeInterleaved

  // ---- what a post asks for ----

  /** The status posted is one of these words, but for case and white space around it. */
  predicate Says(p: Post, words: set<string>) {
    p.PostStatus? && p.body.status.Some? && Lower(Strip(p.body.status.value)) in words
  }

  predicate SavedByReason(p: Post) {
    p.PostStatus? && p.body.reason.Some? && Lower(Strip(p.body.reason.value)) == "result_saved"
  }

  predicate AsksSaved(p: Post) { p.PostResult? || Says(p, {"response_saved", "result_saved"}) || SavedByReason(p) }

  predicate AsksProgress(p: Post) { Says(p, {"running", "sent"}) && !SavedByReason(p) }

  predicate AsksBlocked(p: Post) { Says(p, {"blocked"}) && !SavedByReason(p) }

  predicate AsksConsumed(p: Post) { p.PostConsume? || (Says(p, {"consumed"}) && !SavedByReason(p)) }

  /** Where a task goes on such a post. */
  predicate Goes(before: TaskState, p: Post, after: TaskState) {
    match before
    case Ready => after == if AsksProgress(p) then InProgress else if AsksBlocked(p) then Blocked else Ready
    case InProgress => after == if AsksSaved(p) then ResponseSaved else if AsksBlocked(p) then Blocked else InProgress
    case ResponseSaved => after == if AsksConsumed(p) then Consumed else ResponseSaved
    case Blocked => after == Blocked
    case Consumed => after == Consumed
  }

  lemma WordsDiffer()
    ensures "response_saved" != "blocked" && "response_saved" != "running" && "response_saved" != "sent" && "response_saved" != "consumed"
    ensures "result_saved" != "blocked" && "result_saved" != "running" && "result_saved" != "sent" && "result_saved" != "consumed"
    ensures "blocked" != "running" && "blocked" != "sent" && "blocked" != "consumed" && "running" != "consumed" && "sent" != "consumed"
    ensures "" != "result_saved" && "" != "response_saved" && "" != "blocked" && "" != "running" && "" != "sent" && "" != "consumed"
    ensures Lower(Strip("")) == ""
  {
    assert |"response_saved"| == 14 && |"result_saved"| == 12 && |"blocked"| == 7 && |"running"| == 7 && |"sent"| == 4 && |"consumed"| == 8;
    assert "blocked"[0] == 'b' && "running"[0] == 'r';
  }

  /** The state a post asks for. */
  lemma DesiredIff(p: Post)
    requires !p.PostReset?
    ensures Desired(p) == ResponseSaved <==> AsksSaved(p)
    ensures Desired(p) == InProgress <==> AsksProgress(p)
    ensures Desired(p) == Blocked <==> AsksBlocked(p)
    ensures Desired(p) == Consumed <==> AsksConsumed(p)
  {
    WordsDiffer();
  }

  lemma GoesIsTransition(before: TaskState, p: Post)
    requires !p.PostReset?
    ensures Goes(before, p, Transition(before, Desired(p)).0)
  {
    DesiredIff(p);
  }

  // ---- the current request ----

  /** A post about the current request moves it exactly so: taken or blocked from ready, saved or blocked while in progress,
      consumed once saved, and in every other case it stays. */
  lemma QuietPostGoes(d: Doc, r: Identity, p: Post)
    requires RealRequest(r) && !p.PostReset? && !Conflicts(p, r)
    ensures Goes(ViewOf(d, r), p, ViewOf(Handled(d, Some(r), p), r))
  {
    PostMovesView(d, r, p);
    GoesIsTransition(ViewOf(d, r), p);
  }

  /** The document names the request: it has a task id or a fingerprint, and what it has agrees. */
  predicate About(d: Doc, r: Identity) {
    && (d.identity.taskId != "" || d.identity.fingerprint != "")
    && (d.identity.taskId == "" || d.identity.taskId == r.taskId)
    && (d.identity.fingerprint == "" || d.identity.fingerprint == r.fingerprint)
  }

  predicate Reads(d: Doc, words: set<string>) { Lower(Strip(d.status)) in words && Lower(Strip(d.reason)) != "result_saved" }

  /** What a request's state is read from: its own document's task state, else the words of its status and reason. */
  lemma ViewIs(d: Doc, r: Identity)
    requires RealRequest(r)
    ensures !About(d, r) ==> ViewOf(d, r) == Ready
    ensures About(d, r) && d.taskState.Some? ==> ViewOf(d, r) == d.taskState.value
    ensures About(d, r) && d.taskState.None? ==>
      && (ViewOf(d, r) == ResponseSaved <==>
            Lower(Strip(d.status)) in {"response_saved", "result_saved"} || Lower(Strip(d.reason)) == "result_saved")
      && (ViewOf(d, r) == InProgress <==> Reads(d, {"running", "sent"}))
      && (ViewOf(d, r) == Blocked <==> Reads(d, {"blocked"})) && (ViewOf(d, r) == Consumed <==> Reads(d, {"consumed"}))
  {
    WordsDiffer();
  }

  /** Two identities are of one task: a field is given in both, and every field given in both agrees. */
  predicate SameTask(a: Identity, b: Identity) {
    && ((a.taskId != "" && b.taskId != "") || (a.fingerprint != "" && b.fingerprint != ""))
    && (a.taskId != "" && b.taskId != "" ==> a.taskId == b.taskId)
    && (a.fingerprint != "" && b.fingerprint != "" ==> a.fingerprint == b.fingerprint)
  }

  /** A document that is missing or cannot be read says nothing: every request is ready and was never taken. */
  lemma UnreadIsReady(file: Option<Doc>, readable: bool, r: Identity)
    ensures file.Some? && readable ==> ReadStatus(file, readable) == file.value
    ensures !(file.Some? && readable) ==>
            var d := ReadStatus(file, readable); ViewOf(d, r) == StateOf(d) == Ready && d.attempts == 0 && !SameTask(d.identity, r)
  {
    BridgeInterleaved.IdleMeansReady();
  }

  // ---- the document written ----

  lemma MatchesIff(a: Identity, b: Identity)
    ensures Matches(a, b) <==> SameTask(a, b)
  {
  }

  /** The document written: whose task it is, by what was posted, the current request and what was there; where that task
      goes from where it was; and how often it was taken. */
  lemma DocumentIs(d: Doc, request: Option<Identity>, p: Post, before: TaskState)
    requires !p.PostReset?
    requires before == if SameTask(d.identity, Handled(d, request, p).identity) then StateOf(d) else Ready
    ensures var w, posted := Handled(d, request, p), p.body.identity;
      var current := if request.Some? then request.value else Identity("", "", "");
      && w.identity.taskId == (if posted.taskId != "" then posted.taskId
           else if current.taskId != "" then current.taskId else d.identity.taskId)
      && w.identity.fingerprint == (if posted.fingerprint != "" then posted.fingerprint
           else if current.fingerprint != "" then current.fingerprint else d.identity.fingerprint)
      && w.identity.createdAt == (if posted.createdAt != "" then posted.createdAt
           else if current.createdAt != "" then current.createdAt else d.identity.createdAt)
      && w.taskState.Some? && Goes(before, p, w.taskState.value)
      && w.attempts == (if SameTask(d.identity, w.identity) then d.attempts else 0)
                       + (if before == Ready && w.taskState == Some(InProgress) then 1 else 0)
  {
    MatchesIff(d.identity, Handled(d, request, p).identity);
    GoesIsTransition(before, p);
  }

  /** Its words. */
  lemma WordsAre(d: Doc, request: Option<Identity>, p: Post)
    requires !p.PostReset?
    ensures var w := Handled(d, request, p);
      && (p.PostResult? && w.taskState == Some(ResponseSaved) ==> w.status == "response_saved" && w.reason == "result_received")
      && (p.PostResult? && w.taskState != Some(ResponseSaved) ==>
            w.status == (if d.status != "" then d.status else "blocked") && w.reason == "result_transition_blocked")
      && (p.PostStatus? ==> w.status == (if p.body.status.Some? then p.body.status.value else d.status)
                            && w.reason == (if p.body.reason.Some? then p.body.reason.value else d.reason))
      && (p.PostConsume? ==> w.status == "consumed" && w.reason == "result_consumed")
  {
  }

  predicate Wants(p: Post, s: TaskState) {
    match s
    case Ready => !AsksSaved(p) && !AsksProgress(p) && !AsksBlocked(p) && !AsksConsumed(p)
    case InProgress => AsksProgress(p)
    case ResponseSaved => AsksSaved(p)
    case Blocked => AsksBlocked(p)
    case Consumed => AsksConsumed(p)
  }

  /** A move is noted as refused exactly when the task is not where the post wanted it. */
  lemma RefusedIs(d: Doc, request: Option<Identity>, p: Post, before: TaskState, wanted: TaskState)
    requires !p.PostReset? && Wants(p, wanted)
    requires before == if SameTask(d.identity, Handled(d, request, p).identity) then StateOf(d) else Ready
    ensures var w := Handled(d, request, p);
      w.refused == if w.taskState == Some(wanted) then None else Some((before, wanted))
  {
    MatchesIff(d.identity, Handled(d, request, p).identity);
    DesiredIff(p);
    assert Desired(p) == wanted;
  }

  /** A reset forgets everything but the current request, which is ready again; without one nothing is left to do. */
  lemma ResetIs(d: Doc, request: Option<Identity>)
    ensures var w := Handled(d, request, PostReset);
      && w.status == "idle" && w.reason == "task_reset" && w.attempts == 0 && w.refused.None?
      && (request.Some? ==> w.identity == request.value && w.taskState == Some(Ready))
      && (request.None? ==> w.identity == Identity("", "", "") && w.taskState == Some(Consumed))
  {
  }
}
