/** Scheduled summary delivery (orchestrator/operator_summary_delivery.py): each due schedule is notified
    once per window, with the windows already sent kept in one state file. */
module Delivery {
  import opened Options

  datatype SkipReason = AlreadySent | NoMatchingJob
  datatype FailReason = PathsUnresolvable | InvalidDelivery | NotifierConfig | NotifyFailed

  datatype Outcome = Written(job: string) | Skipped(skip: SkipReason) | Failed(failure: FailReason)

  datatype Entry = Entry(id: string, window: string, outcome: Outcome)

  datatype Sent = Sent(id: string, job: string)

  datatype Notify = Delivered | Refused | DeliveredThenKilled

  /** A due schedule, with what its surroundings will answer. `lookupFails` and a failed summary build
      (`!reusable && !builds`) end the run with an exception; so does a kill. */
  datatype Due = Due(id: string, window: string, lookupFails: bool, job: Option<string>, pathsKnown: bool, reusable: bool,
                     builds: bool, deliveryIsMapping: bool, notifierKnown: bool, notify: Notify)

  /** Where the loop stands: windows sent, windows notified so far in this run, entries made. */
  datatype Progress = Progress(sent: map<string, Sent>, notified: seq<string>, entries: seq<Entry>, aborted: bool)

  /** How one turn of the loop ends: no entry, an exception (perhaps after the notification), or an entry. */
  datatype Turn = NoId | Aborts(afterNotifying: bool) | Made(outcome: Outcome)

  function TurnOf(sent: map<string, Sent>, d: Due): Turn {
    if d.id == "" then NoId
    else if d.window in sent then Made(Skipped(AlreadySent))
    else if d.lookupFails then Aborts(false)
    else if d.job.None? then Made(Skipped(NoMatchingJob))
    else if !d.pathsKnown then Made(Failed(PathsUnresolvable))
    else if !d.reusable && !d.builds then Aborts(false)
    else if !d.deliveryIsMapping then Made(Failed(InvalidDelivery))
    else if !d.notifierKnown then Made(Failed(NotifierConfig))
    else
      match d.notify
      case Refused => Made(Failed(NotifyFailed))
      case DeliveredThenKilled => Aborts(true)
      case Delivered => Made(Written(d.job.value))
  }

  function Apply(p: Progress, d: Due, turn: Turn): Progress {
    match turn
    case NoId => p
    case Aborts(after) => p.(notified := if after then p.notified + [d.window] else p.notified, aborted := true)
    case Made(outcome) =>
      var q := p.(entries := p.entries + [Entry(d.id, d.window, outcome)]);
      match outcome
      case Written(job) => q.(sent := p.sent[d.window := Sent(d.id, job)], notified := p.notified + [d.window])
      case _ => q
  }

  function Handle(p: Progress, d: Due): Progress { Apply(p, d, TurnOf(p.sent, d)) }

  function HandleAll(sent: map<string, Sent>, due: seq<Due>): Progress {
    if due == [] then Progress(sent, [], [], false)
    else
      var p := HandleAll(sent, due[..|due| - 1]);
      if p.aborted then p else Handle(p, due[|due| - 1])
  }

  // ---- one run ----

  /** A torn file still decodes; a garbled one was cut inside a character. */
  datatype File = Missing | Torn | Garbled | Saved(sent: map<string, Sent>)

  /** How the save ends: written, or with an exception, the old file in place, torn or garbled. */
  datatype Save = Saves | KeepsOld | Tears | Garbles

  datatype Run = Run(due: seq<Due>, readable: bool, save: Save)

  /** A missing, torn or unreadable file counts as nothing sent; a garbled one does not get this far unless unreadable. */
  function LoadWindows(file: File, readable: bool): map<string, Sent> {
    if readable && file.Saved? then file.sent else map[]
  }

  /** The loop of one run; reading a garbled file raises an exception the loader does not catch. */
  function Proceed(file: File, r: Run): Progress {
    if r.readable && file.Garbled? then Progress(map[], [], [], true)
    else HandleAll(LoadWindows(file, r.readable), r.due)
  }

  datatype Report = Report(dueCount: nat, deliveryCount: nat, entries: seq<Entry>)

  predicate Wrote(p: Progress) { p.notified != [] }

  /** The run returns: no exception before, and the state saved if it changed. */
  predicate Completes(file: File, r: Run) {
    var p := Proceed(file, r);
    !p.aborted && (Wrote(p) ==> r.save == Saves)
  }

  function FileAfter(file: File, r: Run): File {
    var p := Proceed(file, r);
    if p.aborted || !Wrote(p) then file
    else
      match r.save
      case Saves => Saved(p.sent)
      case KeepsOld => file
      case Tears => Torn
      case Garbles => Garbled
  }

  function WrittenCount(entries: seq<Entry>): nat {
    if entries == [] then 0
    else WrittenCount(entries[..|entries| - 1]) + if entries[|entries| - 1].outcome.Written? then 1 else 0
  }

  class SummaryDelivery {
    var file: File
    /** Every window successfully notified, in order. */
    var log: seq<string>

    constructor ()
      ensures file == Missing && log == []
    {
      file, log := Missing, [];
    }

    /** One turn of the loop; `p` is where the loop stands, `base` the log before the run. */
    method HandleOne(sent: map<string, Sent>, changed: bool, entries: seq<Entry>, d: Due, ghost p: Progress, ghost base: seq<string>)
      returns (sent': map<string, Sent>, changed': bool, entries': seq<Entry>, aborted: bool)
      requires p == Progress(sent, p.notified, entries, false) && changed == Wrote(p) && log == base + p.notified
      modifies this`log
      ensures sent' == Handle(p, d).sent && entries' == Handle(p, d).entries && aborted == Handle(p, d).aborted
      ensures !aborted ==> changed' == Wrote(Handle(p, d))
      ensures log == base + Handle(p, d).notified
    {
      sent', changed', entries', aborted := sent, changed, entries, false;
      if d.id == "" { return; }
      if d.window in sent {
        entries' := entries + [Entry(d.id, d.window, Skipped(AlreadySent))];
        return;
      }
      if d.lookupFails { aborted := true; return; }
      if d.job.None? {
        entries' := entries + [Entry(d.id, d.window, Skipped(NoMatchingJob))];
        return;
      }
      if !d.pathsKnown {
        entries' := entries + [Entry(d.id, d.window, Failed(PathsUnresolvable))];
        return;
      }
      if !d.reusable && !d.builds { aborted := true; return; }
      if !d.deliveryIsMapping {
        entries' := entries + [Entry(d.id, d.window, Failed(InvalidDelivery))];
        return;
      }
      if !d.notifierKnown {
        entries' := entries + [Entry(d.id, d.window, Failed(NotifierConfig))];
        return;
      }
      if d.notify.Refused? {
        entries' := entries + [Entry(d.id, d.window, Failed(NotifyFailed))];
        return;
      }
      log := log + [d.window];
      if d.notify.DeliveredThenKilled? { aborted := true; return; }
      sent', changed' := sent[d.window := Sent(d.id, d.job.value)], true;
      entries' := entries + [Entry(d.id, d.window, Written(d.job.value))];
    }

    /** None is an exception. */
    method RunScheduled(r: Run) returns (report: Option<Report>)
      modifies this
      ensures file == FileAfter(old(file), r)
      ensures log == old(log) + Proceed(old(file), r).notified
      ensures report.Some? <==> Completes(old(file), r)
      ensures report.Some? ==>
        report.value.entries == Proceed(old(file), r).entries
        && report.value.dueCount == |r.due| && report.value.deliveryCount == WrittenCount(report.value.entries)
    {
      if r.readable && file.Garbled? { return None; }
      var sent := LoadWindows(file, r.readable);
      var changed, entries := false, [];
      ghost var before := sent;
      ghost var p := HandleAll(before, []);
      for i := 0 to |r.due|
        invariant file == old(file)
        invariant p == HandleAll(before, r.due[..i]) && p == Progress(sent, p.notified, entries, false)
        invariant changed == Wrote(p) && log == old(log) + p.notified
      {
        assert r.due[..i + 1][..i] == r.due[..i];
        var aborted;
        sent, changed, entries, aborted := HandleOne(sent, changed, entries, r.due[i], p, old(log));
        p := Handle(p, r.due[i]);
        if aborted {
          AbortSticks(before, r.due, i + 1);
          return None;
        }
      }
      assert r.due[..|r.due|] == r.due;
      if changed {
        match r.save {
          case KeepsOld => return None;
          case Tears => file := Torn; return None;
          case Garbles => file := Garbled; return None;
          case Saves => file := Saved(sent);
        }
      }
      var count := CountWritten(entries);
      return Some(Report(|r.due|, count, entries));
    }
  }

  method CountWritten(entries: seq<Entry>) returns (n: nat)
    ensures n == WrittenCount(entries)
  {
    n := 0;
    for i := 0 to |entries|
      invariant n == WrittenCount(entries[..i])
    {
      assert entries[..i + 1][..i] == entries[..i];
      if entries[i].outcome.Written? { n := n + 1; }
    }
    assert entries[..|entries|] == entries;
  }

  lemma {:induction false} AbortSticks(sent: map<string, Sent>, due: seq<Due>, k: nat)
    requires k <= |due| && HandleAll(sent, due[..k]).aborted
    ensures HandleAll(sent, due) == HandleAll(sent, due[..k])
  {
    if k == |due| {
      assert due[..k] == due;
    } else {
      assert due[..|due| - 1][..k] == due[..k];
      AbortSticks(sent, due[..|due| - 1], k);
    }
  }

  // ---- a single run ----

  /** A run never notifies a window it knows as sent, and no window twice, even when it is cut short. */
  lemma {:induction false} NotifiedAreNew(sent: map<string, Sent>, due: seq<Due>)
    ensures var p := HandleAll(sent, due);
            && (forall w :: w in p.notified ==> w !in sent)
            && (forall w :: multiset(p.notified)[w] <= 1)
            && (!p.aborted ==> p.sent.Keys == sent.Keys + set w | w in p.notified)
  {
    if due != [] { NotifiedAreNew(sent, due[..|due| - 1]); }
  }

  /** Schedule and window of each due schedule that has an id ... */
  function Wanted(due: seq<Due>): seq<(string, string)> {
    if due == [] then []
    else
      var d := due[|due| - 1];
      Wanted(due[..|due| - 1]) + if d.id == "" then [] else [(d.id, d.window)]
  }

  /** ... and of each entry made. */
  function Answered(entries: seq<Entry>): seq<(string, string)> {
    if entries == [] then []
    else
      var e := entries[|entries| - 1];
      Answered(entries[..|entries| - 1]) + [(e.id, e.window)]
  }

  /** A run that completes answers every named due schedule once, in order; its delivery count is the number of
      notifications made and of windows added. */
  lemma {:induction false} RunIsAccounted(sent: map<string, Sent>, due: seq<Due>)
    requires !HandleAll(sent, due).aborted
    ensures var p := HandleAll(sent, due);
            && Answered(p.entries) == Wanted(due)
            && WrittenCount(p.entries) == |p.notified| && |p.sent| == |sent| + WrittenCount(p.entries)
  {
    if due != [] {
      RunIsAccounted(sent, due[..|due| - 1]);
      TurnIsAccounted(HandleAll(sent, due[..|due| - 1]), due[|due| - 1]);
    }
  }

  lemma TurnIsAccounted(p: Progress, d: Due)
    requires !p.aborted && !Handle(p, d).aborted
    ensures var q := Handle(p, d);
            && Answered(q.entries) == Answered(p.entries) + (if d.id == "" then [] else [(d.id, d.window)])
            && |q.notified| - |p.notified| == |q.sent| - |p.sent| == WrittenCount(q.entries) - WrittenCount(p.entries)
  {
    var turn := TurnOf(p.sent, d);
    assert turn.NoId? <==> d.id == "";
    assert turn.Made? && turn.outcome.Written? ==> d.window !in p.sent;
    ApplyIsAccounted(p, d, turn);
  }

  lemma ApplyIsAccounted(p: Progress, d: Due, turn: Turn)
    requires !turn.Aborts? && (turn.Made? && turn.outcome.Written? ==> d.window !in p.sent)
    ensures var q := Apply(p, d, turn);
            && Answered(q.entries) == Answered(p.entries) + (if turn.NoId? then [] else [(d.id, d.window)])
            && |q.notified| - |p.notified| == |q.sent| - |p.sent| == WrittenCount(q.entries) - WrittenCount(p.entries)
  {
    if turn.Made? { EntryAdded(p.entries, Entry(d.id, d.window, turn.outcome)); }
  }

  lemma EntryAdded(entries: seq<Entry>, e: Entry)
    ensures Answered(entries + [e]) == Answered(entries) + [(e.id, e.window)]
    ensures WrittenCount(entries + [e]) == WrittenCount(entries) + if e.outcome.Written? then 1 else 0
  {
    assert (entries + [e])[..|entries|] == entries;
  }

  // ---- many runs ----

  datatype History = History(file: File, notified: seq<string>, aborted: nat, unread: nat)

  /** The window is on file. */
  function OnFile(file: File, w: string): nat { if file.Saved? && w in file.sent then 1 else 0 }

  /** The saved state is there and the run does not get it. */
  predicate Unread(file: File, r: Run) { file.Saved? && !r.readable }

  function After(runs: seq<Run>): History {
    if runs == [] then History(Missing, [], 0, 0)
    else
      var h, r := After(runs[..|runs| - 1]), runs[|runs| - 1];
      History(FileAfter(h.file, r), h.notified + Proceed(h.file, r).notified,
              h.aborted + (if Completes(h.file, r) then 0 else 1), h.unread + (if Unread(h.file, r) then 1 else 0))
  }

  /** How often one run notifies w. */
  function Times(file: File, r: Run, w: string): nat {
    multiset(Proceed(file, r).notified)[w]
  }

  /** What a run wastes on w: a notification although w was on file, and w not left on file although it was there or
      was notified. */
  function Wasted(file: File, r: Run, w: string): nat {
    (if Times(file, r, w) > 0 && OnFile(file, w) == 1 then 1 else 0)
    + if (Times(file, r, w) > 0 || OnFile(file, w) == 1) && OnFile(FileAfter(file, r), w) == 0 then 1 else 0
  }

  /** The exact balance of one run, and its price: waste needs an abort or an unread file. */
  lemma RunBalances(file: File, r: Run, w: string)
    ensures OnFile(file, w) + Times(file, r, w) == OnFile(FileAfter(file, r), w) + Wasted(file, r, w)
    ensures Wasted(file, r, w) <= (if Completes(file, r) then 0 else 1) + (if Unread(file, r) then 1 else 0)
  {
    NotifiedAreNew(LoadWindows(file, r.readable), r.due);
    var p := Proceed(file, r);
    assert Times(file, r, w) > 0 <==> w in p.notified;
  }

  function AllWasted(runs: seq<Run>, w: string): nat {
    if runs == [] then 0
    else AllWasted(runs[..|runs| - 1], w) + Wasted(After(runs[..|runs| - 1]).file, runs[|runs| - 1], w)
  }

  /** Over any runs, from an empty start: the notifications of w are w on file, if it is, plus what was wasted. */
  lemma {:induction false} NotificationsBalance(runs: seq<Run>, w: string)
    ensures multiset(After(runs).notified)[w] == OnFile(After(runs).file, w) + AllWasted(runs, w)
  {
    if runs != [] {
      NotificationsBalance(runs[..|runs| - 1], w);
      RunBalances(After(runs[..|runs| - 1]).file, runs[|runs| - 1], w);
    }
  }

  /** Hence the bound: every further notification of a window was paid for by an aborted run or an unread file. */
  lemma {:induction false} NotificationsAreBounded(runs: seq<Run>, w: string)
    ensures var h := After(runs);
            && AllWasted(runs, w) <= h.aborted + h.unread
            && multiset(h.notified)[w] <= OnFile(h.file, w) + h.aborted + h.unread <= 1 + h.aborted + h.unread
  {
    NotificationsBalance(runs, w);
    if runs != [] {
      NotificationsAreBounded(runs[..|runs| - 1], w);
      RunBalances(After(runs[..|runs| - 1]).file, runs[|runs| - 1], w);
    }
  }

  /** So while every run completes and reads the file, a window is notified at most once. */
  lemma CalmRunsNotifyOnce(runs: seq<Run>, w: string)
    requires After(runs).aborted == 0 && After(runs).unread == 0
    ensures multiset(After(runs).notified)[w] <= 1
  {
    NotificationsAreBounded(runs, w);
  }

  /** A garbled file stops delivery: until it is repaired no run that reads it completes, notifies or changes it. */
  lemma {:induction false} GarbledStopsDelivery(runs: seq<Run>, more: seq<Run>)
    requires After(runs).file == Garbled && forall i :: 0 <= i < |more| ==> more[i].readable
    ensures var h, h' := After(runs), After(runs + more);
            h'.file == Garbled && h'.notified == h.notified && h'.aborted == h.aborted + |more|
  {
    if more == [] {
      assert runs + more == runs;
    } else {
      var front := more[..|more| - 1];
      GarbledStopsDelivery(runs, front);
      assert (runs + more)[..|runs + more| - 1] == runs + front;
    }
  }

  function Prompt(w: string): Due { Due("s", w, false, Some("job"), true, true, true, true, true, Delivered) }

  /** A healthy prompt is notified once by any run that does not know it as sent. */
  lemma PromptNotifies(file: File, readable: bool, save: Save, w: string)
    requires w !in LoadWindows(file, readable) && !file.Garbled?
    ensures Proceed(file, Run([Prompt(w)], readable, save)) ==
      Progress(LoadWindows(file, readable)[w := Sent("s", "job")], [w], [Entry("s", w, Written("job"))], false)
  {
    OneDue(LoadWindows(file, readable), Prompt(w));
  }

  /** Neither allowance can be dropped: a failed save costs a second notification, ... */
  lemma BoundIsMet(w: string)
    ensures var h := After([Run([Prompt(w)], true, KeepsOld), Run([Prompt(w)], true, Saves)]);
            multiset(h.notified)[w] == 2 && h.aborted == 1 && h.unread == 0
  {
    TwoRuns(Run([Prompt(w)], true, KeepsOld), Run([Prompt(w)], true, Saves));
    PromptNotifies(Missing, true, KeepsOld, w);
    PromptNotifies(Missing, true, Saves, w);
  }

  /** ... and so does an unread file. */
  lemma BoundIsMetUnread(w: string)
    ensures var h := After([Run([Prompt(w)], true, Saves), Run([Prompt(w)], false, Saves)]);
            multiset(h.notified)[w] == 2 && h.aborted == 0 && h.unread == 1
  {
    TwoRuns(Run([Prompt(w)], true, Saves), Run([Prompt(w)], false, Saves));
    PromptNotifies(Missing, true, Saves, w);
    PromptNotifies(Saved(map[w := Sent("s", "job")]), false, Saves, w);
  }

  lemma OneDue(sent: map<string, Sent>, d: Due)
    ensures HandleAll(sent, [d]) == Handle(Progress(sent, [], [], false), d)
  {
    assert [d][..0] == [];
  }

  lemma TwoRuns(a: Run, b: Run)
    ensures var h := After([a]);
            After([a, b]) == History(FileAfter(h.file, b), h.notified + Proceed(h.file, b).notified,
              h.aborted + (if Completes(h.file, b) then 0 else 1), h.unread + (if Unread(h.file, b) then 1 else 0))
    ensures After([a]) == History(FileAfter(Missing, a), Proceed(Missing, a).notified,
              if Completes(Missing, a) then 0 else 1, 0)
  {
    assert [a, b][..1] == [a] && [a][..0] == [];
  }
}
