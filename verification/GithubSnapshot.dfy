/** Collecting the GitHub state of a pull request (orchestrator/github_backend.py). */
module GithubSnapshot {
  import opened Options
  import opened Text
  import opened Values
  import opened Policies
  import opened SortedTexts

  // ---- readings ----

  /** The first value that is present, not null and not blank. */
  function FirstNonEmpty(values: seq<Option<Value>>): Option<string> {
    if values == [] then None
    else if values[0].Some? && values[0].value != Null && Strip(Str(values[0].value)) != "" then Some(Strip(Str(values[0].value)))
    else FirstNonEmpty(values[1..])
  }

  function Names(v: Option<Value>): seq<string> {
    match v
    case Some(List(items, _)) => SortedSet(Texts(items))
    case Some(Tuple(items, _)) => SortedSet(Texts(items))
    case _ => []
  }

  function Choice(v: Option<Value>, allowed: set<string>): Option<string> {
    if v.None? || v.value == Null then None
    else
      var word := Lower(Strip(Str(v.value)));
      if word in allowed then Some(word) else None
  }

  function AnyBool(v: Option<Value>): Option<bool> {
    match v
    case Some(Flag(on)) => Some(on)
    case Some(Number(n)) => Some(n != 0)
    case Some(Words(text)) => BoolWord(text)
    case _ => None
  }

  function AnyInt(v: Option<Value>): IntReading {
    match v
    case Some(Number(n)) => AnInt(n)
    case Some(Words(text)) => IntOf(Strip(text))
    case _ => NoInt
  }

  function CountOr0(r: IntReading): nat { if r.AnInt? && r.n > 0 then r.n else 0 }

  // ---- the collected state ----

  /** A state mapping, read at fixed keys; `NoState` is the empty one. */
  datatype State = NoState | State(
    repository: Option<Value>, repo: Option<Value>, targetRef: Option<Value>, baseRef: Option<Value>, baseBranch: Option<Value>,
    prNumber: Option<Value>,
    requiredChecks: Option<Value>, passingChecks: Option<Value>, failingChecks: Option<Value>, pendingChecks: Option<Value>,
    checksState: Option<Value>,
    approvals: Option<Value>, changesRequested: Option<Value>, requiredApprovals: Option<Value>, reviewState: Option<Value>,
    isMergeable: Option<Value>, mergeable: Option<Value>, isDraft: Option<Value>, mergeabilityState: Option<Value>)

  const EMPTY_STATE := State(None, None, None, None, None, None, None, None, None, None, None, None, None, None, None, None, None, None, None)

  function Fields(s: State): State { if s.NoState? then EMPTY_STATE else s }

  /** What the request itself says about the target. */
  datatype Target = Target(repo: Option<Value>, targetRef: Option<Value>)

  const CHECK_STATES := {"passing", "failing", "pending", "unknown"}
  const REVIEW_STATES := {"approved", "changes_requested", "pending", "unknown"}
  const MERGEABILITY_STATES := {"clean", "blocked", "behind", "dirty", "draft", "unknown"}

  function Repository(t: Target, s: State): Option<string>
    requires s.State?
  {
    FirstNonEmpty([s.repository, s.repo, t.repo])
  }

  function TargetRef(t: Target, s: State): Option<string>
    requires s.State?
  {
    FirstNonEmpty([s.targetRef, s.baseRef, s.baseBranch, t.targetRef])
  }

  function Checks(s: State): string
    requires s.State?
  {
    var explicit := Choice(s.checksState, CHECK_STATES);
    var required := Names(s.requiredChecks);
    if explicit.Some? then explicit.value
    else if Names(s.failingChecks) != [] then "failing"
    else if Names(s.pendingChecks) != [] then "pending"
    else if required != [] && (forall c :: c in required ==> c in Names(s.passingChecks)) then "passing"
    else "unknown"
  }

  predicate Readable(s: State)
    requires s.State?
  {
    !AnyInt(s.prNumber).Raises? && !AnyInt(s.approvals).Raises?
    && !AnyInt(s.changesRequested).Raises? && !AnyInt(s.requiredApprovals).Raises?
  }

  /** The value is a text with two dashes or more in front of digits. */
  predicate BadCount(v: Option<Value>) { v.Some? && v.value.Words? && DoubleDashed(Strip(v.value.text)) }

  lemma AnyIntRaisesIff(v: Option<Value>)
    ensures AnyInt(v).Raises? <==> BadCount(v)
  {
    if v.Some? && v.value.Words? { RaisesIff(Strip(v.value.text)); }
  }

  predicate HasBadCount(s: State) {
    s.State? && (BadCount(s.prNumber) || BadCount(s.approvals) || BadCount(s.changesRequested) || BadCount(s.requiredApprovals))
  }

  /** A state is unreadable exactly when one of its four counts is such a text. */
  lemma UnreadableIff(s: State)
    ensures !Readable(Fields(s)) <==> HasBadCount(s)
  {
    if s.State? {
      AnyIntRaisesIff(s.prNumber);
      AnyIntRaisesIff(s.approvals);
      AnyIntRaisesIff(s.changesRequested);
      AnyIntRaisesIff(s.requiredApprovals);
    }
  }

  function Review(s: State): string
    requires s.State?
  {
    var explicit := Choice(s.reviewState, REVIEW_STATES);
    var approvals := CountOr0(AnyInt(s.approvals));
    var required := AnyInt(s.requiredApprovals);
    if explicit.Some? then explicit.value
    else if CountOr0(AnyInt(s.changesRequested)) > 0 then "changes_requested"
    else if required.AnInt? && required.n > 0 && approvals >= required.n then "approved"
    else if approvals > 0 && (!required.AnInt? || required.n == 0) then "pending"
    else if approvals == 0 then "pending"
    else "unknown"
  }

  function Draft(s: State): Option<bool>
    requires s.State?
  {
    AnyBool(s.isDraft)
  }

  function Mergeability(s: State): string
    requires s.State?
  {
    var explicit := Choice(s.mergeabilityState, MERGEABILITY_STATES);
    var mergeable := AnyBool(if s.isMergeable.Some? then s.isMergeable else s.mergeable);
    if explicit.Some? then explicit.value
    else if Draft(s) == Some(true) then "draft"
    else if mergeable == Some(true) then "clean"
    else if mergeable == Some(false) then "blocked"
    else "unknown"
  }

  // ---- the snapshot ----

  datatype Progress = Unavailable | Blocked | Ready

  datatype Obstacle =
    | StateUnavailable | RepositoryMissing | TargetRefMissing | ChecksNotPassing | ReviewNotApproved
    | MergeabilityNotClean | PullRequestIsDraft | LiveStateUnavailable | LiveStateFetchFailed

  datatype Snapshot = Snapshot(available: bool, repository: Option<string>, targetRef: Option<string>,
                               checks: string, review: string, mergeability: string, draft: Option<bool>,
                               progress: Progress, obstacles: seq<Obstacle>)

  /** The tests made of a state, in the order they are made. */
  datatype Findings = Findings(empty: bool, noRepository: bool, noTargetRef: bool, checksNotPassing: bool,
                               notApproved: bool, notClean: bool, draft: bool)

  function FindingsOf(t: Target, s: State): Findings {
    var f := Fields(s);
    Findings(s.NoState?, Repository(t, f).None?, TargetRef(t, f).None?, Checks(f) != "passing", Review(f) != "approved",
             Mergeability(f) != "clean", Draft(f) == Some(true))
  }

  function Note(found: seq<Obstacle>, c: bool, o: Obstacle): (r: seq<Obstacle>)
    ensures r == [] <==> found == [] && !c
  {
    if c then found + [o] else found
  }

  function Obstacles(g: Findings): (r: seq<Obstacle>)
    ensures r == [] <==> g == Findings(false, false, false, false, false, false, false)
  {
    var a := Note(Note(Note([], g.empty, StateUnavailable), g.noRepository, RepositoryMissing), g.noTargetRef, TargetRefMissing);
    var b := Note(Note(a, g.checksNotPassing, ChecksNotPassing), g.notApproved, ReviewNotApproved);
    Note(Note(b, g.notClean, MergeabilityNotClean), g.draft, PullRequestIsDraft)
  }

  method NoteObstacles(g: Findings) returns (obstacles: seq<Obstacle>)
    ensures obstacles == Obstacles(g)
  {
    obstacles := [];
    if g.empty { obstacles := obstacles + [StateUnavailable]; }
    if g.noRepository { obstacles := obstacles + [RepositoryMissing]; }
    if g.noTargetRef { obstacles := obstacles + [TargetRefMissing]; }
    if g.checksNotPassing { obstacles := obstacles + [ChecksNotPassing]; }
    if g.notApproved { obstacles := obstacles + [ReviewNotApproved]; }
    if g.notClean { obstacles := obstacles + [MergeabilityNotClean]; }
    if g.draft { obstacles := obstacles + [PullRequestIsDraft]; }
  }

  /** The extra ones that are new, after them. */
  function AddNew(found: seq<Obstacle>, extra: seq<Obstacle>): seq<Obstacle> {
    if extra == [] then found
    else
      var before := AddNew(found, extra[..|extra| - 1]);
      var o := extra[|extra| - 1];
      if o in before then before else before + [o]
  }

  function SnapshotOf(t: Target, s: State, extra: seq<Obstacle>): Snapshot {
    var f := Fields(s);
    var obstacles := AddNew(Obstacles(FindingsOf(t, s)), extra);
    Snapshot(s.State?, Repository(t, f), TargetRef(t, f), Checks(f), Review(f), Mergeability(f), Draft(f),
             if s.NoState? then Unavailable else if obstacles != [] then Blocked else Ready, obstacles)
  }

  /** None is the ValueError of an unreadable count. */
  function Collected(t: Target, s: State, extra: seq<Obstacle>): Option<Snapshot> {
    if Readable(Fields(s)) then Some(SnapshotOf(t, s, extra)) else None
  }

  predicate IsReady(p: Option<Snapshot>) { p.Some? && p.value.progress.Ready? }

  method BuildSnapshot(t: Target, s: State, extra: seq<Obstacle>) returns (r: Option<Snapshot>)
    ensures r == Collected(t, s, extra)
    ensures r.None? <==> HasBadCount(s)
  {
    var f := Fields(s);
    UnreadableIff(s);
    if !Readable(f) {
      return None;
    }
    ghost var own := Obstacles(FindingsOf(t, s));
    var obstacles := NoteObstacles(FindingsOf(t, s));
    for i := 0 to |extra|
      invariant obstacles == AddNew(own, extra[..i])
    {
      assert extra[..i + 1][..i] == extra[..i];
      if extra[i] !in obstacles { obstacles := obstacles + [extra[i]]; }
    }
    assert extra[..|extra|] == extra;
    var progress := if s.NoState? then Unavailable else if obstacles != [] then Blocked else Ready;
    return Some(Snapshot(s.State?, Repository(t, f), TargetRef(t, f), Checks(f), Review(f), Mergeability(f), Draft(f),
                         progress, obstacles));
  }

  lemma {:induction false} AddNewGrows(found: seq<Obstacle>, extra: seq<Obstacle>)
    ensures AddNew(found, extra) == [] <==> found == [] && extra == []
    ensures forall o :: o in AddNew(found, extra) <==> o in found || o in extra
  {
    if extra != [] {
      AddNewGrows(found, extra[..|extra| - 1]);
      assert extra == extra[..|extra| - 1] + [extra[|extra| - 1]];
    }
  }

  lemma SnapshotReadyIff(t: Target, s: State, extra: seq<Obstacle>)
    ensures SnapshotOf(t, s, extra).progress.Ready? <==>
            && s.State? && Repository(t, s).Some? && TargetRef(t, s).Some?
            && Checks(s) == "passing" && Review(s) == "approved" && Mergeability(s) == "clean"
            && Draft(s) != Some(true) && extra == []
  {
    AddNewGrows(Obstacles(FindingsOf(t, s)), extra);
  }

  /** Exactly when collecting gives a snapshot that is ready. */
  lemma ReadyIff(t: Target, s: State, extra: seq<Obstacle>)
    ensures IsReady(Collected(t, s, extra)) <==>
            && s.State? && !HasBadCount(s) && Repository(t, s).Some? && TargetRef(t, s).Some?
            && Checks(s) == "passing" && Review(s) == "approved" && Mergeability(s) == "clean"
            && Draft(s) != Some(true) && extra == []
  {
    SnapshotReadyIff(t, s, extra);
    UnreadableIff(s);
  }

  // ---- the two backends ----

  /** What a live fetch gave; `Fetched(NoState)` is an answer that is empty or no mapping. */
  datatype Fetch = NotConfigured | FetchFailed | Fetched(state: State)

  function LiveState(fetch: Fetch): State { if fetch.Fetched? then fetch.state else NoState }

  function LiveObstacles(fetch: Fetch): seq<Obstacle> {
    (if LiveState(fetch).NoState? then [LiveStateUnavailable] else [])
    + if fetch.FetchFailed? then [LiveStateFetchFailed] else []
  }

  /** A configured fetch is first given a target hint read from the artifact, outside the handler of its own
      exceptions: None as well when that pull request number cannot be read. */
  function LiveSnapshot(t: Target, fetch: Fetch, artifact: State): Option<Snapshot> {
    if !fetch.NotConfigured? && AnyInt(Fields(artifact).prNumber).Raises? then None
    else Collected(t, if LiveState(fetch).NoState? then artifact else LiveState(fetch), LiveObstacles(fetch))
  }

  /** The live backend is ready exactly when it fetched a state that collects to a ready snapshot, and the artifact,
      otherwise unused, has a readable pull request number. */
  lemma LiveReadyOnlyOnFetchedState(t: Target, fetch: Fetch, artifact: State)
    ensures IsReady(LiveSnapshot(t, fetch, artifact)) <==>
            && fetch.Fetched? && fetch.state.State? && IsReady(Collected(t, fetch.state, []))
            && (artifact.State? ==> !BadCount(artifact.prNumber))
  {
    ReadyIff(t, if LiveState(fetch).NoState? then artifact else LiveState(fetch), LiveObstacles(fetch));
    ReadyIff(t, LiveState(fetch), []);
    AnyIntRaisesIff(Fields(artifact).prNumber);
  }

  /** Exactly when the live backend raises: on the hint, or on the state it ends up with. */
  lemma LiveRaisesIff(t: Target, fetch: Fetch, artifact: State)
    ensures LiveSnapshot(t, fetch, artifact).None? <==>
            || (!fetch.NotConfigured? && artifact.State? && BadCount(artifact.prNumber))
            || HasBadCount(if fetch.Fetched? && fetch.state.State? then fetch.state else artifact)
  {
    AnyIntRaisesIff(Fields(artifact).prNumber);
    UnreadableIff(if LiveState(fetch).NoState? then artifact else LiveState(fetch));
  }

  // ---- the receipt as the gate reads it ----

  datatype RawTarget = RawTarget(repository: Option<Value>, targetRef: Option<Value>)

  /** Signals handed to the gate: any mapping, consulted at fixed keys. */
  datatype Signals = Signals(available: Option<Value>, target: Section<RawTarget>, checks: Section<Option<Value>>,
                             review: Section<Option<Value>>, mergeability: Section<Option<Value>>)

  /** The texts the gate's derivations look at. */
  datatype View = View(available: bool, repository: string, targetRef: string, checks: string, review: string, mergeability: string)

  function PlainText(v: Option<Value>): string {
    if v.None? || v.value == Null then "" else Strip(Str(v.value))
  }

  /** The `state` entry of one section; a section that is no mapping is the empty snapshot's. */
  function StateText(section: Section<Option<Value>>, ofEmpty: string): string {
    match section
    case Mapping(v) =>
      var text := Lower(if v.None? then "unknown" else PlainText(v));
      if text == "" then "unknown" else text
    case _ => ofEmpty
  }

  function ViewOf(signals: Option<Signals>): View {
    match signals
    case None => View(false, "", "", "unknown", "pending", "unknown")
    case Some(g) =>
      View(Switch(g.available, false),
           if g.target.Mapping? then PlainText(g.target.body.repository) else "",
           if g.target.Mapping? then PlainText(g.target.body.targetRef) else "",
           StateText(g.checks, "unknown"), StateText(g.review, "pending"), StateText(g.mergeability, "unknown"))
  }

  function MaybeText(s: Option<string>): Option<Value> { Some(if s.Some? then Words(s.value) else Null) }

  /** A collected snapshot handed on as signals. */
  function SignalsOf(p: Snapshot): Signals {
    Signals(Some(Flag(p.available)), Mapping(RawTarget(MaybeText(p.repository), MaybeText(p.targetRef))),
            Mapping(Some(Words(p.checks))), Mapping(Some(Words(p.review))), Mapping(Some(Words(p.mergeability))))
  }

  lemma {:induction false} FirstNonEmptyIsClean(values: seq<Option<Value>>)
    ensures FirstNonEmpty(values).Some? ==> Clean(FirstNonEmpty(values).value)
  {
    if values != [] {
      FirstNonEmptyIsClean(values[1..]);
      if values[0].Some? { StripIdempotent(Str(values[0].value)); }
    }
  }

  lemma ChoiceIsSettled(v: Option<Value>, allowed: set<string>)
    ensures Choice(v, allowed).Some? ==> Lower(Strip(Choice(v, allowed).value)) == Choice(v, allowed).value
  {
    if Choice(v, allowed).Some? {
      var text := Strip(Str(v.value));
      StripIdempotent(Str(v.value));
      LowerSettles(text);
      StripIdempotent(Lower(text));
    }
  }

  predicate Settled(word: string) { Lower(Strip(word)) == word && word != "" }

  lemma SmallWordIsSettled(word: string)
    requires word != "" && forall i :: 0 <= i < |word| ==> 'a' <= word[i] <= 'z' || word[i] == '_'
    ensures Settled(word)
  {
    StripIdempotent(word);
    assert Lower(word) == word;
  }

  lemma ChecksAreSettled(s: State)
    requires s.State?
    ensures Settled(Checks(s))
  {
    SmallWordIsSettled("passing");
    SmallWordIsSettled("failing");
    SmallWordIsSettled("pending");
    SmallWordIsSettled("unknown");
    ChoiceIsSettled(s.checksState, CHECK_STATES);
    assert "" !in CHECK_STATES;
  }

  lemma ReviewIsSettled(s: State)
    requires s.State?
    ensures Settled(Review(s))
  {
    SmallWordIsSettled("approved");
    SmallWordIsSettled("changes_requested");
    SmallWordIsSettled("pending");
    SmallWordIsSettled("unknown");
    ChoiceIsSettled(s.reviewState, REVIEW_STATES);
    assert "" !in REVIEW_STATES;
  }

  lemma MergeabilityIsSettled(s: State)
    requires s.State?
    ensures Settled(Mergeability(s))
  {
    SmallWordIsSettled("clean");
    SmallWordIsSettled("blocked");
    SmallWordIsSettled("draft");
    SmallWordIsSettled("unknown");
    ChoiceIsSettled(s.mergeabilityState, MERGEABILITY_STATES);
    assert "" !in MERGEABILITY_STATES;
  }

  function Plain(s: Option<string>): string { if s.Some? then s.value else "" }

  lemma TargetTextReadsBack(values: seq<Option<Value>>)
    ensures PlainText(MaybeText(FirstNonEmpty(values))) == Plain(FirstNonEmpty(values))
    ensures Plain(FirstNonEmpty(values)) == "" <==> FirstNonEmpty(values).None?
  {
    FirstNonEmptyIsClean(values);
    StripIdempotent(Plain(FirstNonEmpty(values)));
  }

  lemma StateTextReadsBack(word: string, ofEmpty: string)
    requires Settled(word)
    ensures StateText(Mapping(Some(Words(word))), ofEmpty) == word
  {
  }

  lemma SignalsReadBack(p: Snapshot)
    requires Settled(p.checks) && Settled(p.review) && Settled(p.mergeability)
    requires PlainText(MaybeText(p.repository)) == Plain(p.repository) && PlainText(MaybeText(p.targetRef)) == Plain(p.targetRef)
    ensures ViewOf(Some(SignalsOf(p))) == View(p.available, Plain(p.repository), Plain(p.targetRef), p.checks, p.review, p.mergeability)
  {
    StateTextReadsBack(p.checks, "unknown");
    StateTextReadsBack(p.review, "pending");
    StateTextReadsBack(p.mergeability, "unknown");
  }

  /** The gate reads back from a collected snapshot exactly the states the collector derived. */
  lemma CollectedViewReadsBack(t: Target, s: State, extra: seq<Obstacle>)
    ensures var p := SnapshotOf(t, s, extra);
            ViewOf(Some(SignalsOf(p))) == View(p.available, Plain(p.repository), Plain(p.targetRef), p.checks, p.review, p.mergeability)
            && (Plain(p.repository) == "" <==> p.repository.None?) && (Plain(p.targetRef) == "" <==> p.targetRef.None?)
  {
    var f := Fields(s);
    ChecksAreSettled(f);
    ReviewIsSettled(f);
    MergeabilityIsSettled(f);
    TargetTextReadsBack([f.repository, f.repo, t.repo]);
    TargetTextReadsBack([f.targetRef, f.baseRef, f.baseBranch, t.targetRef]);
    SignalsReadBack(SnapshotOf(t, s, extra));
  }
}
