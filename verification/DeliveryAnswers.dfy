/** What becomes of each due schedule in a scheduled delivery, said of its own fields. */
module DeliveryAnswers {
  import opened Options
  import opened Delivery

  /** A schedule that is really tried: its window is not known as sent, and its lookup works. */
  predicate Tried(known: bool, d: Due) { !known && !d.lookupFails }

  /** ... whose job and paths are found ... */
  predicate Located(known: bool, d: Due) { Tried(known, d) && d.job.Some? && d.pathsKnown }

  /** ... whose summary exists, or is built now ... */
  predicate Summarised(known: bool, d: Due) { Located(known, d) && (d.reusable || d.builds) }

  /** ... so that the notifier is asked. */
  predicate Asked(known: bool, d: Due) { Summarised(known, d) && d.deliveryIsMapping && d.notifierKnown }

  /** What each outcome means: the first field that is wrong decides. The cases exclude each other. */
  predicate Means(known: bool, d: Due, outcome: Outcome) {
    match outcome
    case Written(job) => Asked(known, d) && d.notify.Delivered? && d.job == Some(job)
    case Skipped(AlreadySent) => known
    case Skipped(NoMatchingJob) => Tried(known, d) && d.job.None?
    case Failed(PathsUnresolvable) => Tried(known, d) && d.job.Some? && !d.pathsKnown
    case Failed(InvalidDelivery) => Summarised(known, d) && !d.deliveryIsMapping
    case Failed(NotifierConfig) => Summarised(known, d) && d.deliveryIsMapping && !d.notifierKnown
    case Failed(NotifyFailed) => Asked(known, d) && d.notify.Refused?
  }

  /** What ends the run with an exception. */
  predicate Aborting(known: bool, d: Due) {
    !known && (d.lookupFails || (Located(known, d) && !d.reusable && !d.builds) || (Asked(known, d) && d.notify.DeliveredThenKilled?))
  }

  lemma OneMeaning(known: bool, d: Due, a: Outcome, b: Outcome)
    requires Means(known, d, a) && Means(known, d, b)
    ensures a == b && !Aborting(known, d)
  {
  }

  // ---- one turn ----

  /** A turn skips a schedule without an id; it aborts, or makes the one entry its fields mean, and the window is sent
      and notified with a written entry, notified also when the run is killed after delivery. */
  lemma TurnAnswer(p: Progress, d: Due)
    requires !p.aborted
    ensures var q, known := Handle(p, d), d.window in p.sent;
      if d.id == "" then q == p
      else if Aborting(known, d) then
        q.aborted && q.entries == p.entries && q.sent == p.sent
        && q.notified == if Asked(known, d) then p.notified + [d.window] else p.notified
      else
        && |q.entries| == |p.entries| + 1 && q.entries[..|p.entries|] == p.entries && !q.aborted
        && var e := q.entries[|p.entries|];
          && e.id == d.id && e.window == d.window && Means(known, d, e.outcome)
          && q.sent == (if e.outcome.Written? then p.sent[d.window := Sent(d.id, e.outcome.job)] else p.sent)
          && q.notified == if e.outcome.Written? then p.notified + [d.window] else p.notified
  {
  }

  // ---- one run ----

  /** The due schedules that have an id. */
  function Named(due: seq<Due>): seq<Due> {
    if due == [] then [] else Named(due[..|due| - 1]) + if due[|due| - 1].id == "" then [] else [due[|due| - 1]]
  }

  predicate WrittenIn(entries: seq<Entry>, w: string) {
    exists j :: 0 <= j < |entries| && entries[j].window == w && entries[j].outcome.Written?
  }

  /** Sent before the run, or earlier in it. */
  predicate Known(sent: map<string, Sent>, entries: seq<Entry>, w: string) { w in sent || WrittenIn(entries, w) }

  /** Entry k answers the named schedule k. */
  predicate Answers(sent: map<string, Sent>, named: seq<Due>, entries: seq<Entry>, k: nat)
    requires k < |named| == |entries|
  {
    && entries[k].id == named[k].id && entries[k].window == named[k].window
    && Means(Known(sent, entries[..k], named[k].window), named[k], entries[k].outcome)
  }

  predicate AllAnswered(sent: map<string, Sent>, named: seq<Due>, entries: seq<Entry>) {
    |named| == |entries| && forall k :: 0 <= k < |named| ==> Answers(sent, named, entries, k)
  }

  lemma WrittenInMore(entries: seq<Entry>, e: Entry, w: string)
    ensures WrittenIn(entries + [e], w) <==> WrittenIn(entries, w) || (e.window == w && e.outcome.Written?)
  {
    var all := entries + [e];
    assert all[|entries|] == e;
    if j :| 0 <= j < |entries| && entries[j].window == w && entries[j].outcome.Written? { assert all[j] == entries[j]; }
  }

  lemma AnsweredMore(sent: map<string, Sent>, named: seq<Due>, entries: seq<Entry>, d: Due, e: Entry)
    requires AllAnswered(sent, named, entries)
    requires e.id == d.id && e.window == d.window && Means(Known(sent, entries, d.window), d, e.outcome)
    ensures AllAnswered(sent, named + [d], entries + [e])
  {
    var ds, es := named + [d], entries + [e];
    forall k | 0 <= k < |ds| ensures Answers(sent, ds, es, k) {
      assert es[..k] == entries[..k];
      assert k < |named| ==> Answers(sent, named, entries, k);
      assert entries[..|entries|] == entries;
    }
  }

  /** A completed loop has one entry for each named schedule, in order, and each says what the fields of its own schedule
      mean, given what was sent before it; sent are the windows known at the end, and notified those written. */
  lemma {:induction false} RunAnswer(sent: map<string, Sent>, due: seq<Due>)
    requires !HandleAll(sent, due).aborted
    ensures var p := HandleAll(sent, due);
      && AllAnswered(sent, Named(due), p.entries)
      && (forall w :: w in p.sent <==> Known(sent, p.entries, w))
      && forall w :: w in p.notified <==> WrittenIn(p.entries, w)
  {
    if due != [] {
      var front, d := due[..|due| - 1], due[|due| - 1];
      RunAnswer(sent, front);
      var p, q := HandleAll(sent, front), HandleAll(sent, due);
      TurnAnswer(p, d);
      if d.id != "" {
        var e := q.entries[|p.entries|];
        assert q.entries == p.entries + [e];
        AnsweredMore(sent, Named(front), p.entries, d, e);
        forall w ensures (w in q.sent <==> Known(sent, q.entries, w)) && (w in q.notified <==> WrittenIn(q.entries, w)) {
          WrittenInMore(p.entries, e, w);
        }
      } else {
        assert Named(due) == Named(front);
      }
    }
  }

  /** Whether or not the run is cut short: some schedule of the window was delivered, ... */
  predicate DeliveredIn(due: seq<Due>, w: string) {
    exists i :: 0 <= i < |due| && due[i].id != "" && due[i].window == w && due[i].notify.Delivered?
  }

  /** ... or at least not refused. */
  predicate NotRefusedIn(due: seq<Due>, w: string) {
    exists i :: 0 <= i < |due| && due[i].id != "" && due[i].window == w && !due[i].notify.Refused?
  }

  lemma DeliveredInMore(due: seq<Due>, d: Due, w: string)
    ensures DeliveredIn(due, w) ==> DeliveredIn(due + [d], w)
    ensures NotRefusedIn(due, w) ==> NotRefusedIn(due + [d], w)
    ensures d.id != "" && d.window == w && d.notify.Delivered? ==> DeliveredIn(due + [d], w)
    ensures d.id != "" && d.window == w && !d.notify.Refused? ==> NotRefusedIn(due + [d], w)
  {
    var all := due + [d];
    assert all[|due|] == d;
    if i :| 0 <= i < |due| && due[i].id != "" && due[i].window == w && due[i].notify.Delivered? { assert all[i] == due[i]; }
    if i :| 0 <= i < |due| && due[i].id != "" && due[i].window == w && !due[i].notify.Refused? { assert all[i] == due[i]; }
  }

  /** A window is newly sent only through a delivered notification of a schedule of that window, and notified only through
      one that was not refused; what was sent stays, and is not notified. */
  lemma {:induction false} OnlyByNotification(sent: map<string, Sent>, due: seq<Due>, w: string)
    ensures var p := HandleAll(sent, due);
      && (w in p.sent && w !in sent ==> DeliveredIn(due, w))
      && (w in p.notified ==> NotRefusedIn(due, w))
      && (w in sent ==> w in p.sent && p.sent[w] == sent[w] && w !in p.notified)
  {
    if due != [] {
      var front, d := due[..|due| - 1], due[|due| - 1];
      assert due == front + [d];
      OnlyByNotification(sent, front, w);
      DeliveredInMore(front, d, w);
    }
  }

  /** What a run starts from, and what it leaves on file. */
  lemma FileAnswer(file: File, r: Run)
    ensures var stuck := file.Garbled? && r.readable;
      var p := HandleAll(if file.Saved? && r.readable then file.sent else map[], r.due);
      var saving := !stuck && !p.aborted && p.notified != [];
      && (Completes(file, r) <==> !stuck && !p.aborted && (p.notified == [] || r.save.Saves?))
      && (!stuck ==> Proceed(file, r) == p) && (stuck ==> Proceed(file, r).notified == [])
      && FileAfter(file, r) == if !saving || r.save.KeepsOld? then file
                               else if r.save.Saves? then Saved(p.sent) else if r.save.Tears? then Torn else Garbled
  {
  }
}
