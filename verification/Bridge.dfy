/** scripts/chatgpt_bridge_server.py: one request, one status document, five task states. */
module Bridge {
  import opened Options
  import opened Text

  datatype TaskState = Ready | InProgress | ResponseSaved | Blocked | Consumed

  /** ALLOWED_TASK_TRANSITIONS */
  predicate Edge(a: TaskState, b: TaskState) {
    match a
    case Ready => b == InProgress || b == Blocked
    case InProgress => b == ResponseSaved || b == Blocked
    case ResponseSaved => b == Consumed
    case Blocked | Consumed => false
  }

  /** Empty text is an absent field; `fingerprint` is request_fingerprint, else task_fingerprint. */
  datatype Identity = Identity(taskId: string, fingerprint: string, createdAt: string)

  const NOBODY := Identity("", "", "")

  /** The fields of the status document the server reads back. `taskState` None: missing or not one of the five. */
  datatype Doc = Doc(status: string, reason: string, taskState: Option<TaskState>, identity: Identity, attempts: int,
                     refused: Option<(TaskState, TaskState)>)

  const IDLE := Doc("idle", "", None, NOBODY, 0, None)

  datatype Payload = Payload(status: Option<string>, reason: Option<string>, identity: Identity)

  datatype Post = PostResult(body: Payload, response: string) | PostStatus(body: Payload) | PostConsume(body: Payload) | PostReset

  function MapRuntime(status: string, reason: string): TaskState {
    var s := Lower(Strip(status));
    if s == "response_saved" || s == "result_saved" || Lower(Strip(reason)) == "result_saved" then ResponseSaved
    else if s == "blocked" then Blocked
    else if s == "running" || s == "sent" then InProgress
    else if s == "consumed" then Consumed
    else Ready
  }

  function StateOf(d: Doc): TaskState {
    if d.taskState.Some? then d.taskState.value else MapRuntime(d.status, d.reason)
  }

  predicate Matches(a: Identity, b: Identity) {
    if a.taskId != "" && b.taskId != "" && a.fingerprint != "" && b.fingerprint != ""
      then a.taskId == b.taskId && a.fingerprint == b.fingerprint
    else if a.fingerprint != "" && b.fingerprint != "" then a.fingerprint == b.fingerprint
    else a.taskId != "" && b.taskId != "" && a.taskId == b.taskId
  }

  function FirstOf(a: string, b: string, c: string): string { if a != "" then a else if b != "" then b else c }

  function Resolve(posted: Identity, request: Identity, existing: Identity): Identity {
    Identity(FirstOf(posted.taskId, request.taskId, existing.taskId),
             FirstOf(posted.fingerprint, request.fingerprint, existing.fingerprint),
             FirstOf(posted.createdAt, request.createdAt, existing.createdAt))
  }

  function Transition(previous: TaskState, desired: TaskState): (TaskState, bool) {
    if desired != previous && Edge(previous, desired) then (desired, true) else (previous, false)
  }

  function Request(r: Option<Identity>): Identity { if r.Some? then r.value else NOBODY }

  function Or<T>(o: Option<T>, d: T): T { if o.Some? then o.value else d }

  function Desired(p: Post): TaskState {
    match p
    case PostResult(_, _) => ResponseSaved
    case PostStatus(b) => MapRuntime(Or(b.status, ""), Or(b.reason, ""))
    case PostConsume(_) => Consumed
    case PostReset => Ready
  }

  /** The document a handler writes after reading `existing` while `request` is the current request. */
  function Handled(existing: Doc, request: Option<Identity>, p: Post): Doc {
    if p.PostReset? then
      Doc("idle", "task_reset", Some(if request.Some? then Ready else Consumed), Request(request), 0, None)
    else
      var who := Resolve(p.body.identity, Request(request), existing.identity);
      var same := Matches(existing.identity, who);
      var previous := if same then StateOf(existing) else Ready;
      var (next, moved) := Transition(previous, Desired(p));
      var kept := if same then existing.attempts else 0;
      var started := p.PostStatus? && previous == Ready && next == InProgress && moved;
      var refused := if !moved && next != Desired(p) then Some((previous, Desired(p))) else None;
      match p
      case PostResult(_, _) =>
        var saved := next == ResponseSaved;
        Doc(if saved then "response_saved" else if existing.status != "" then existing.status else "blocked",
            if saved then "result_received" else "result_transition_blocked", Some(next), who, kept, refused)
      case PostStatus(b) =>
        Doc(Or(b.status, existing.status), Or(b.reason, existing.reason), Some(next), who,
            if started then kept + 1 else kept, refused)
      case PostConsume(_) => Doc("consumed", "result_consumed", Some(next), who, kept, refused)
  }

  /** What GET /next-task says about request `r`. */
  function ViewOf(d: Doc, r: Identity): TaskState {
    if Matches(d.identity, r) then StateOf(d) else Ready
  }

  predicate Offered(d: Doc, request: Option<Identity>) { request.Some? && ViewOf(d, request.value) == Ready }

  /** A missing or unreadable file reads as the idle document. */
  function ReadStatus(file: Option<Doc>, readable: bool): Doc {
    if file.Some? && readable then file.value else IDLE
  }

  /** The three files the server works on. */
  class BridgeServer {
    var file: Option<Doc>
    var response: string
    var request: Option<Identity>

    constructor (r: Option<Identity>)
      ensures file == None && request == r
    {
      file, response, request := None, "", r;
    }

    method DoPost(p: Post, readable: bool) returns (written: Doc)
      modifies this`file, this`response
      ensures file == Some(written) && written == Handled(ReadStatus(old(file), readable), request, p)
      ensures response == if p.PostResult? then p.response else old(response)
    {
      match p {
        case PostResult(body, text) =>
          response := text;
          written := OnResult(body, text, readable);
        case PostStatus(body) => written := OnStatus(body, readable);
        case PostConsume(body) => written := OnConsume(body, readable);
        case PostReset =>
          if request.Some? {
            written := Doc("idle", "task_reset", Some(Ready), request.value, 0, None);
          } else {
            written := Doc("idle", "task_reset", Some(Consumed), NOBODY, 0, None);
          }
      }
      file := Some(written);
    }

    method OnResult(body: Payload, text: string, readable: bool) returns (doc: Doc)
      ensures doc == Handled(ReadStatus(file, readable), request, PostResult(body, text))
    {
      var existing := ReadStatus(file, readable);
      var who := Resolve(body.identity, Request(request), existing.identity);
      var previous, attempts := Ready, 0;
      if Matches(existing.identity, who) { previous, attempts := StateOf(existing), existing.attempts; }
      var (next, moved) := Transition(previous, ResponseSaved);
      doc := existing.(taskState := Some(next), identity := who, attempts := attempts, refused := None);
      if next == ResponseSaved {
        doc := doc.(status := "response_saved", reason := "result_received");
      } else {
        doc := doc.(reason := "result_transition_blocked", refused := if moved then None else Some((previous, ResponseSaved)));
        if doc.status == "" { doc := doc.(status := "blocked"); }
      }
    }

    method OnStatus(body: Payload, readable: bool) returns (doc: Doc)
      ensures doc == Handled(ReadStatus(file, readable), request, PostStatus(body))
    {
      var existing := ReadStatus(file, readable);
      var who := Resolve(body.identity, Request(request), existing.identity);
      var desired := MapRuntime(Or(body.status, ""), Or(body.reason, ""));
      var previous, attempts := Ready, 0;
      if Matches(existing.identity, who) { previous, attempts := StateOf(existing), existing.attempts; }
      var (next, moved) := Transition(previous, desired);
      if previous == Ready && next == InProgress && moved { attempts := attempts + 1; }
      doc := existing.(taskState := Some(next), identity := who, attempts := attempts, refused := None);
      if body.status.Some? { doc := doc.(status := body.status.value); }
      if body.reason.Some? { doc := doc.(reason := body.reason.value); }
      if !moved && next != desired { doc := doc.(refused := Some((previous, desired))); }
    }

    method OnConsume(body: Payload, readable: bool) returns (doc: Doc)
      ensures doc == Handled(ReadStatus(file, readable), request, PostConsume(body))
    {
      var existing := ReadStatus(file, readable);
      var who := Resolve(body.identity, Request(request), existing.identity);
      var previous, attempts := Ready, 0;
      if Matches(existing.identity, who) { previous, attempts := StateOf(existing), existing.attempts; }
      var (next, moved) := Transition(previous, Consumed);
      doc := existing.(status := "consumed", reason := "result_consumed", taskState := Some(next),
                       identity := who, attempts := attempts, refused := None);
      if !moved && next != Consumed { doc := doc.(refused := Some((previous, Consumed))); }
    }
  }
}

/** The bridge under a threading server: a handler reads the document, later the request file, and later still
    writes; anything may happen in between. */
module BridgeInterleaved {
  import opened Options
  import opened Bridge
  import Text

  /** Attempts count 0 while ready, 1 once the prompt is with the browser or its answer is saved. */
  predicate Sound(d: Doc) {
    && 0 <= d.attempts <= 1
    && (StateOf(d) == Ready ==> d.attempts == 0)
    && (StateOf(d) == InProgress || StateOf(d) == ResponseSaved ==> d.attempts == 1)
  }

  lemma HandlersKeepSound(d: Doc, request: Option<Identity>, p: Post)
    requires Sound(d)
    ensures Sound(Handled(d, request, p)) && Handled(d, request, p).taskState.Some?
  {
  }

  /** A handler that has read the document, and one that has then seen the request file too; neither has written. */
  datatype Pending = HasRead(post: Post, read: Doc) | HasSeen(post: Post, read: Doc, seen: Option<Identity>)

  datatype Server = Server(file: Option<Doc>, request: Option<Identity>, pending: map<nat, Pending>, written: seq<Doc>)

  /** What a look sees is free: text and time stamp of the request file are read one after the other, so a file replaced
      in between gives a snapshot of neither request. */
  datatype Move =
    | Begin(thread: nat, post: Post, readable: bool)
    | Look(thread: nat, seen: Option<Identity>)
    | Finish(thread: nat)
    | NewRequest(request: Option<Identity>)

  function Step(s: Server, m: Move): Server {
    match m
    case Begin(i, p, readable) => s.(pending := s.pending[i := HasRead(p, ReadStatus(s.file, readable))])
    case Look(i, seen) =>
      if i !in s.pending || !s.pending[i].HasRead? then s
      else s.(pending := s.pending[i := HasSeen(s.pending[i].post, s.pending[i].read, seen)])
    case Finish(i) =>
      if i !in s.pending || !s.pending[i].HasSeen? then s
      else
        var d := Handled(s.pending[i].read, s.pending[i].seen, s.pending[i].post);
        s.(file := Some(d), pending := s.pending - {i}, written := s.written + [d])
    case NewRequest(r) => s.(request := r)
  }

  function Run(s: Server, ms: seq<Move>): Server
    decreases |ms|
  {
    if ms == [] then s else Run(Step(s, ms[0]), ms[1..])
  }

  predicate FreshServer(s: Server) {
    (s.file.Some? ==> Sound(s.file.value)) && s.pending == map[] && s.written == []
  }

  predicate AllSound(s: Server) {
    && (s.file.Some? ==> Sound(s.file.value))
    && (forall i :: i in s.pending ==> Sound(s.pending[i].read))
    && (forall i :: 0 <= i < |s.written| ==> Sound(s.written[i]) && s.written[i].taskState.Some?)
  }

  lemma StepKeepsSound(s: Server, m: Move)
    requires AllSound(s)
    ensures AllSound(Step(s, m))
  {
    match m
    case Begin(i, p, readable) => IdleMeansReady();
    case Look(_, _) =>
    case Finish(i) =>
      if i in s.pending && s.pending[i].HasSeen? {
        HandlersKeepSound(s.pending[i].read, s.pending[i].seen, s.pending[i].post);
        var s' := Step(s, m);
        assert forall j :: j in s'.pending ==> j in s.pending && s'.pending[j] == s.pending[j];
      }
    case NewRequest(r) =>
  }

  lemma {:induction false} RunKeepsSound(s: Server, ms: seq<Move>)
    requires AllSound(s)
    ensures AllSound(Run(s, ms))
    decreases |ms|
  {
    if ms != [] {
      StepKeepsSound(s, ms[0]);
      RunKeepsSound(Step(s, ms[0]), ms[1..]);
    }
  }

  /** Lost updates, stale reads and unreadable files never produce an illegal state or attempt count. */
  lemma EveryWrittenDocumentIsSound(s: Server, ms: seq<Move>, i: nat)
    requires FreshServer(s) && i < |Run(s, ms).written|
    ensures var d := Run(s, ms).written[i]; d.taskState.Some? && Sound(d)
  {
    RunKeepsSound(s, ms);
  }

  const TASK := Identity("task-1", "sha256:1", "")
  const NOTHING_SAID := Payload(None, None, NOBODY)
  const RUNNING := Payload(Some("running"), None, NOBODY)

  /** What interleaving does cost: a consume that read before the prompt was taken puts a running task
      back to ready, and the prompt is offered twice. */
  lemma StaleWriteOffersAgain()
    ensures var s0 := Server(None, Some(TASK), map[], []);
      var s1 := Step(Step(s0, Begin(1, PostConsume(NOTHING_SAID), true)), Look(1, s0.request));
      var s2 := Step(Step(Step(s1, Begin(2, PostStatus(RUNNING), true)), Look(2, s1.request)), Finish(2));
      var s3 := Step(s2, Finish(1));
      && s2.file.Some? && ViewOf(s2.file.value, TASK) == InProgress
      && s3.file.Some? && Offered(s3.file.value, Some(TASK))
  {
    RunningTakes(TASK);
    EarlyConsumeKeepsReady(TASK);
  }

  /** What the two posts make of the idle document. */
  lemma RunningTakes(r: Identity)
    requires r.taskId != "" && r.fingerprint != ""
    ensures Handled(IDLE, Some(r), PostStatus(RUNNING)) == Doc("running", "", Some(InProgress), r, 1, None)
  {
    RunningMeansInProgress();
    IdleMeansReady();
  }

  lemma EarlyConsumeKeepsReady(r: Identity)
    requires r.taskId != "" && r.fingerprint != ""
    ensures Handled(IDLE, Some(r), PostConsume(NOTHING_SAID)) == Doc("consumed", "result_consumed", Some(Ready), r, 0, Some((Ready, Consumed)))
  {
    IdleMeansReady();
  }

  lemma RunningMeansInProgress()
    ensures MapRuntime("running", "") == InProgress
  {
    Plain("running");
    Plain("");
  }

  lemma IdleMeansReady()
    ensures MapRuntime("idle", "") == Ready
  {
    Plain("idle");
    Plain("");
  }

  lemma Plain(s: string)
    requires Text.Stripped(s) && forall i :: 0 <= i < |s| ==> 'a' <= s[i] <= 'z'
    ensures Text.Lower(Text.Strip(s)) == s
  {
    Text.StripIdempotent(s);
  }
}

/** The bridge with one handler at a time. */
module BridgeAtomic {
  import opened Options
  import opened Bridge

  /** Every request file has a task id and a fingerprint. */
  predicate RealRequest(r: Identity) { r.taskId != "" && r.fingerprint != "" }

  predicate Conflicts(p: Post, r: Identity) {
    !p.PostReset?
    && ((p.body.identity.taskId != "" && p.body.identity.taskId != r.taskId)
     || (p.body.identity.fingerprint != "" && p.body.identity.fingerprint != r.fingerprint))
  }

  /** The effect of one post on the current request, in every case: it moves along the table, or it is
      a reset or speaks for another task, and then the request is ready again. */
  lemma PostMovesView(d: Doc, r: Identity, p: Post)
    requires RealRequest(r)
    ensures ViewOf(Handled(d, Some(r), p), r) ==
      if p.PostReset? || Conflicts(p, r) then Ready else Transition(ViewOf(d, r), Desired(p)).0
  {
  }

  /** A request that has left ready is offered again exactly by a reset or a conflicting post. */
  lemma OfferedAgainIff(d: Doc, r: Identity, p: Post)
    requires RealRequest(r) && !Offered(d, Some(r))
    ensures Offered(Handled(d, Some(r), p), Some(r)) <==> p.PostReset? || Conflicts(p, r)
  {
    PostMovesView(d, r, p);
  }

  predicate Quiet(posts: seq<Post>, r: Identity) {
    forall i :: 0 <= i < |posts| ==> !posts[i].PostReset? && !Conflicts(posts[i], r)
  }

  function After(d: Doc, r: Identity, posts: seq<Post>): Doc
    decreases |posts|
  {
    if posts == [] then d else After(Handled(d, Some(r), posts[0]), r, posts[1..])
  }

  /** The states of request r before, between and after the posts. */
  function Views(d: Doc, r: Identity, posts: seq<Post>): (vs: seq<TaskState>)
    ensures |vs| == |posts| + 1 && vs[0] == ViewOf(d, r) && vs[|posts|] == ViewOf(After(d, r, posts), r)
    decreases |posts|
  {
    if posts == [] then [ViewOf(d, r)] else [ViewOf(d, r)] + Views(Handled(d, Some(r), posts[0]), r, posts[1..])
  }

  predicate FollowsEdges(vs: seq<TaskState>) {
    forall i :: 0 < i < |vs| ==> vs[i] == vs[i - 1] || Edge(vs[i - 1], vs[i])
  }

  /** Between resets and conflicting posts the state only follows edges of the table. */
  lemma {:induction false} QuietRunsFollowEdges(d: Doc, r: Identity, posts: seq<Post>)
    requires RealRequest(r) && Quiet(posts, r)
    ensures FollowsEdges(Views(d, r, posts))
    decreases |posts|
  {
    if posts != [] {
      PostMovesView(d, r, posts[0]);
      var d' := Handled(d, Some(r), posts[0]);
      QuietRunsFollowEdges(d', r, posts[1..]);
      var rest := Views(d', r, posts[1..]);
      PrependEdge(ViewOf(d, r), rest);
    }
  }

  lemma PrependEdge(v: TaskState, vs: seq<TaskState>)
    requires FollowsEdges(vs) && vs != [] && (vs[0] == v || Edge(v, vs[0]))
    ensures FollowsEdges([v] + vs)
  {
  }

  lemma {:induction false} NeverReadyAgain(vs: seq<TaskState>, i: nat, j: nat)
    requires FollowsEdges(vs) && i <= j < |vs| && vs[i] != Ready
    ensures vs[j] != Ready
    decreases j
  {
    if i < j { NeverReadyAgain(vs, i, j - 1); assert vs[j] == vs[j - 1] || Edge(vs[j - 1], vs[j]); }
  }

  /** The state before the last change. */
  lemma {:induction false} CameFrom(vs: seq<TaskState>, j: nat) returns (i: nat)
    requires FollowsEdges(vs) && j < |vs| && vs[0] != vs[j]
    ensures i < j && Edge(vs[i], vs[j])
    decreases j
  {
    assert vs[j] == vs[j - 1] || Edge(vs[j - 1], vs[j]);
    if vs[j - 1] != vs[j] { i := j - 1; } else { i := CameFrom(vs, j - 1); }
  }

  /** Consumed is reached only through in_progress and then response_saved. */
  lemma ConsumedOnlyThroughSaved(d: Doc, r: Identity, posts: seq<Post>)
    requires RealRequest(r) && Quiet(posts, r)
    requires ViewOf(d, r) == Ready && ViewOf(After(d, r, posts), r) == Consumed
    ensures exists i, j :: 0 < i < j < |posts| && Views(d, r, posts)[i] == InProgress && Views(d, r, posts)[j] == ResponseSaved
  {
    QuietRunsFollowEdges(d, r, posts);
    var vs := Views(d, r, posts);
    var j := CameFrom(vs, |posts|);
    var i := CameFrom(vs, j);
    assert vs[i] == InProgress && vs[j] == ResponseSaved && 0 < i < j < |posts|;
  }

  /** Once the prompt has left ready, /next-task does not offer it again. */
  lemma NeverOfferedAgain(d: Doc, r: Identity, posts: seq<Post>)
    requires RealRequest(r) && Quiet(posts, r) && !Offered(d, Some(r))
    ensures !Offered(After(d, r, posts), Some(r))
  {
    QuietRunsFollowEdges(d, r, posts);
    NeverReadyAgain(Views(d, r, posts), 0, |posts|);
  }
}

/** Exactly which interleaved handlers offer a prompt again. */
module BridgeStale {
  import opened Options
  import opened Bridge
  import opened BridgeInterleaved
  import opened BridgeAtomic

  /** The identity a handler will write, and the state it takes that task to be in. */
  function Who(p: Pending): Identity
    requires p.HasSeen? && !p.post.PostReset?
  {
    Resolve(p.post.body.identity, Request(p.seen), p.read.identity)
  }

  function Previous(p: Pending): TaskState
    requires p.HasSeen? && !p.post.PostReset?
  {
    if Matches(p.read.identity, Who(p)) then StateOf(p.read) else Ready
  }

  /** A handler about to write that will leave request r offered: it resets, will write another task's identity (posted,
      or from a request file seen before r came), or took the task to be ready and does not move it on. */
  predicate Careless(p: Pending, r: Identity) {
    p.HasSeen?
    && (p.post.PostReset? || !Matches(Who(p), r) || (Previous(p) == Ready && !Edge(Ready, Desired(p.post))))
  }

  /** A write offers the prompt of r exactly when its handler is careless, whatever was written or requested meanwhile. */
  lemma FinishOffersIff(s: Server, i: nat, r: Identity)
    requires i in s.pending && s.pending[i].HasSeen? && RealRequest(r)
    ensures var s' := Step(s, Finish(i));
      s'.file.Some? && (Offered(s'.file.value, Some(r)) <==> Careless(s.pending[i], r))
  {
  }

  /** The task the handler writes about is r: named by the post, else by the snapshot. */
  predicate SpeaksFor(posted: Identity, seen: Identity, r: Identity) {
    && r.taskId == (if posted.taskId != "" then posted.taskId else seen.taskId)
    && r.fingerprint == (if posted.fingerprint != "" then posted.fingerprint else seen.fingerprint)
  }

  /** For a handler that saw a request, in terms of what it was sent and what it read: a stale snapshot q of another
      request is as bad as a conflicting post, and a stale document as bad as no move. */
  lemma CarelessAbout(p: Pending, q: Identity, r: Identity)
    requires p.HasSeen? && p.seen == Some(q) && RealRequest(q) && RealRequest(r)
    ensures Careless(p, r) <==>
      || p.post.PostReset? || !SpeaksFor(p.post.body.identity, q, r)
      || (ViewOf(p.read, r) == Ready && !Edge(Ready, Desired(p.post)))
  {
  }

  /** When the snapshot is of r itself, only resets, conflicting posts and stale documents are left. */
  lemma CarelessWithCurrentSnapshot(p: Pending, r: Identity)
    requires p.HasSeen? && p.seen == Some(r) && RealRequest(r)
    ensures Careless(p, r) <==>
      || p.post.PostReset? || Conflicts(p.post, r)
      || (ViewOf(p.read, r) == Ready && !Edge(Ready, Desired(p.post)))
  {
    CarelessAbout(p, r, r);
  }

  const LATER := Identity("task-2", "sha256:2", "")

  /** A stale snapshot at work: a handler that saw the earlier request writes its identity over the later one's
      progress, and the later prompt is offered twice. */
  lemma StaleSnapshotOffersAgain()
    ensures var s0 := Server(None, Some(TASK), map[], []);
      var s1 := Step(Step(Step(s0, Begin(1, PostStatus(RUNNING), true)), Look(1, s0.request)), NewRequest(Some(LATER)));
      var s2 := Step(Step(Step(s1, Begin(2, PostStatus(RUNNING), true)), Look(2, s1.request)), Finish(2));
      var s3 := Step(s2, Finish(1));
      && s2.file.Some? && ViewOf(s2.file.value, LATER) == InProgress
      && s3.file.Some? && s3.request == Some(LATER) && Offered(s3.file.value, s3.request)
  {
    RunningTakes(TASK);
    RunningTakes(LATER);
  }

  /** Some handler finishes carelessly during the run. */
  predicate Carelessly(s: Server, ms: seq<Move>, r: Identity)
    decreases |ms|
  {
    ms != []
    && (FinishesCarelessly(s, ms[0], r) || Carelessly(Step(s, ms[0]), ms[1..], r))
  }

  predicate SomeOffer(written: seq<Doc>, r: Identity) {
    exists n :: 0 <= n < |written| && Offered(written[n], Some(r))
  }

  lemma {:induction false} RunAppends(s: Server, ms: seq<Move>)
    ensures s.written <= Run(s, ms).written
    decreases |ms|
  {
    if ms != [] { RunAppends(Step(s, ms[0]), ms[1..]); }
  }

  lemma OfferSplits(a: seq<Doc>, b: seq<Doc>, r: Identity)
    ensures SomeOffer(a + b, r) <==> SomeOffer(a, r) || SomeOffer(b, r)
  {
    if n :| 0 <= n < |a| && Offered(a[n], Some(r)) { assert (a + b)[n] == a[n]; }
    if n :| 0 <= n < |b| && Offered(b[n], Some(r)) { assert (a + b)[|a| + n] == b[n]; }
  }

  predicate FinishesCarelessly(s: Server, m: Move, r: Identity) {
    m.Finish? && m.thread in s.pending && Careless(s.pending[m.thread], r)
  }

  /** One move writes at most one document, and offers the prompt with it exactly when it finishes carelessly. */
  lemma MoveOffersIff(s: Server, m: Move, r: Identity)
    requires RealRequest(r)
    ensures s.written <= Step(s, m).written
    ensures SomeOffer(Step(s, m).written[|s.written|..], r) <==> FinishesCarelessly(s, m, r)
  {
    var added := Step(s, m).written[|s.written|..];
    if m.Finish? && m.thread in s.pending && s.pending[m.thread].HasSeen? {
      FinishOffersIff(s, m.thread, r);
      assert added == [Step(s, m).file.value];
      assert Offered(added[0], Some(r)) <==> SomeOffer(added, r);
    } else {
      assert added == [];
    }
  }

  /** Over any interleaving, with any requests coming and going: a document written in the run offers the prompt of r
      exactly when some handler finishes carelessly about r. */
  lemma {:induction false} RunOffersIff(s: Server, ms: seq<Move>, r: Identity)
    requires RealRequest(r)
    ensures |s.written| <= |Run(s, ms).written|
    ensures SomeOffer(Run(s, ms).written[|s.written|..], r) <==> Carelessly(s, ms, r)
    decreases |ms|
  {
    RunAppends(s, ms);
    if ms != [] {
      var s', all := Step(s, ms[0]), Run(s, ms).written;
      MoveOffersIff(s, ms[0], r);
      RunOffersIff(s', ms[1..], r);
      RunAppends(s', ms[1..]);
      OfferSplits(s'.written[|s.written|..], all[|s'.written|..], r);
      assert all[|s.written|..] == s'.written[|s.written|..] + all[|s'.written|..];
    }
  }

  /** The request stands and every look sees it; posts neither reset nor conflict, and their reads reach the file. */
  predicate Quietly(m: Move, r: Identity) {
    match m
    case Begin(_, post, readable) => readable && !post.PostReset? && !Conflicts(post, r)
    case Look(_, seen) => seen == Some(r)
    case Finish(_) => true
    case NewRequest(request) => request == Some(r)
  }

  predicate AllQuietly(ms: seq<Move>, r: Identity) { forall k :: 0 <= k < |ms| ==> Quietly(ms[k], r) }

  /** The handler has read the request past ready and has seen, or will see, nothing but r. */
  predicate Fresh(p: Pending, r: Identity) {
    && !p.post.PostReset?
    && match p
       case HasRead(post, read) => ViewOf(read, r) != Ready && !Conflicts(post, r)
       case HasSeen(_, _, _) => Matches(Who(p), r) && Previous(p) != Ready
  }

  predicate AllTaken(s: Server, r: Identity) {
    && s.request == Some(r) && s.file.Some? && !Offered(s.file.value, Some(r))
    && forall i :: i in s.pending ==> Fresh(s.pending[i], r)
  }

  lemma LookKeepsFresh(post: Post, read: Doc, r: Identity)
    requires RealRequest(r) && Fresh(HasRead(post, read), r)
    ensures Fresh(HasSeen(post, read, Some(r)), r)
  {
  }

  /** One quiet move on the request keeps it taken. */
  lemma MoveKeepsTaken(s: Server, m: Move, r: Identity)
    requires RealRequest(r) && AllTaken(s, r) && Quietly(m, r)
    ensures !FinishesCarelessly(s, m, r) && AllTaken(Step(s, m), r)
  {
    match m {
      case Begin(i, post, readable) =>
      case Look(i, _) => if i in s.pending && s.pending[i].HasRead? { LookKeepsFresh(s.pending[i].post, s.pending[i].read, r); }
      case Finish(i) => if i in s.pending && s.pending[i].HasSeen? { FinishOffersIff(s, i, r); }
      case NewRequest(_) =>
    }
  }

  /** So only stale reads are to blame: if the prompt has left ready, and every pending handler read that and has seen no
      other request, no interleaving of quiet handlers offers it again while the request stands. */
  lemma {:induction false} FreshReadsNeverOffer(s: Server, ms: seq<Move>, r: Identity)
    requires RealRequest(r) && AllTaken(s, r) && AllQuietly(ms, r)
    ensures !Carelessly(s, ms, r) && AllTaken(Run(s, ms), r)
    decreases |ms|
  {
    if ms != [] {
      assert Quietly(ms[0], r) && AllQuietly(ms[1..], r);
      MoveKeepsTaken(s, ms[0], r);
      FreshReadsNeverOffer(Step(s, ms[0]), ms[1..], r);
    }
  }
}
