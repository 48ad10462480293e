/** What the two policy readers make of a document, field by field. */
module PolicyAnswers {
  import opened Options
  import opened Text
  import opened Values
  import opened Policies
  import opened PolicyLoader
  import opened GatePolicy
  import G = GithubAnswers

  // ---- the gate's reading ----

  lemma ListIs(v: Option<Value>, x: string)
    ensures x in TupleOf(v) <==> x != "" && G.Lists(v, x)
    ensures TupleOf(v) != [] <==> G.ListsSome(v)
  {
    if v.Some? && (v.value.List? || v.value.Tuple?) {
      var items := v.value.items;
      G.TextsMeaning(items, x);
      if TupleOf(v) != [] { G.TextsMeaning(items, TupleOf(v)[0]); }
      if G.ListsSome(v) {
        var i :| 0 <= i < |items| && Strip(Str(items[i])) != "";
        G.TextsMeaning(items, Strip(Str(items[i])));
      }
    }
  }

  /** A switch is off only when it is there and false. */
  lemma SwitchesAre(r: RawSwitches)
    ensures !SwitchesOf(r).ciGreen <==> r.ciGreen.Some? && !Truthy(r.ciGreen.value)
    ensures !SwitchesOf(r).rubricAllPass <==> r.rubricAllPass.Some? && !Truthy(r.rubricAllPass.value)
    ensures !SwitchesOf(r).declaredEqualsObserved <==> r.declaredEqualsObserved.Some? && !Truthy(r.declaredEqualsObserved.value)
    ensures !SwitchesOf(r).noForbiddenPaths <==> r.noForbiddenPaths.Some? && !Truthy(r.noForbiddenPaths.value)
    ensures !SwitchesOf(r).sizeWithinLimit <==> r.sizeWithinLimit.Some? && !Truthy(r.sizeWithinLimit.value)
  {
  }

  /** A list that names something, or the one default. */
  predicate NamedOr(v: Option<Value>, default: set<string>, x: string) {
    if G.ListsSome(v) then x != "" && G.Lists(v, x) else x in default
  }

  /** Writing is off, dry and stopped unless the document says otherwise. */
  lemma WriteSectionIs(s: Section<RawWrite>, x: string)
    ensures var w, r := ReadWrite(s), if s.Mapping? then s.body else RawWrite(None, None, None, None, None);
      && (w.enabled <==> r.enabled.Some? && Truthy(r.enabled.value))
      && (!w.dryRun <==> r.dryRun.Some? && !Truthy(r.dryRun.value))
      && (!w.killSwitch <==> r.killSwitch.Some? && !Truthy(r.killSwitch.value))
      && (x in w.categories <==> NamedOr(r.categories, {"docs_only"}, x))
      && (x in w.states <==> NamedOr(r.states, {"approved_for_merge"}, x))
  {
    var r := BodyOr(s, EMPTY_WRITE);
    ListIs(r.categories, x);
    ListIs(r.states, x);
  }

  /** The count a value stands for: a number or digits, nothing below zero. */
  function CountOr(v: Option<Value>, default: nat): nat {
    if v.None? then default
    else if v.value.Number? then (if v.value.n > 0 then v.value.n else 0)
    else if v.value.Words? && AllDigits(Strip(v.value.text)) then Text.Value(Strip(v.value.text))
    else default
  }

  lemma RetrySectionIs(s: Section<RawRetry>, x: string)
    ensures var a, r := ReadRetry(s), if s.Mapping? then s.body else RawRetry(None, None);
      && a.maxAttempts == CountOr(r.maxAttempts, 2)
      && (x in a.retriable <==> NamedOr(r.retriable, {"execution_failure", "missing_signal"}, x))
  {
    ListIs(BodyOr(s, EMPTY_RETRY).retriable, x);
  }

  lemma AutoSectionIs(s: Section<RawAuto>, x: string)
    ensures var a, r := ReadAuto(s), if s.Mapping? then s.body else RawAuto(None, None, None, None, None, None, None, None, Missing);
      && (x in a.eligible <==> x != "" && G.Lists(r.eligible, x)) && (x in a.autoPr <==> x != "" && G.Lists(r.autoPr, x))
      && (x in a.generated <==> x != "" && G.Lists(r.generated, x)) && (x in a.runtime <==> x != "" && G.Lists(r.runtime, x))
      && (x in a.contract <==> x != "" && G.Lists(r.contract, x))
      && a.changedFiles == CountOr(r.changedFiles, 0) && a.diffLines == CountOr(r.diffLines, 0)
      && a.thresholds == ReadThresholds(if r.thresholds.Mapping? then r.thresholds.body else [])
  {
    var r := BodyOr(s, EMPTY_AUTO);
    ListIs(r.eligible, x);
    ListIs(r.autoPr, x);
    ListIs(r.generated, x);
    ListIs(r.runtime, x);
    ListIs(r.contract, x);
  }

  /** Extensions are compared in lower case, so they are read in lower case. */
  lemma ExtensionsAre(s: Section<RawAuto>, x: string)
    ensures x in ReadAuto(s).binary <==> s.Mapping? && exists e :: e != "" && G.Lists(s.body.binary, e) && x == Lower(e)
  {
    var texts := TupleOf(BodyOr(s, EMPTY_AUTO).binary);
    if x in ReadAuto(s).binary {
      var i :| 0 <= i < |texts| && LowerAll(texts)[i] == x;
      ListIs(s.body.binary, texts[i]);
    }
    if s.Mapping? && exists e :: e != "" && G.Lists(s.body.binary, e) && x == Lower(e) {
      var e :| e != "" && G.Lists(s.body.binary, e) && x == Lower(e);
      ListIs(s.body.binary, e);
      var i :| 0 <= i < |texts| && texts[i] == e;
      assert LowerAll(texts)[i] == x;
    }
  }

  // ---- thresholds ----

  lemma {:induction false} PutFinds(d: Thresholds, name: string, t: Threshold, other: string)
    ensures Find(Put(d, name, t), other) == if other == name then Some(t) else Find(d, other)
  {
    if d != [] && d[0].0 != name {
      PutFinds(d[1..], name, t, other);
      assert ([d[0]] + Put(d[1..], name, t))[1..] == Put(d[1..], name, t);
    } else if d != [] {
      assert ([(name, t)] + d[1..])[1..] == d[1..];
    }
  }

  /** An entry counts for a category when its key is that name, not blank, and its body a mapping. */
  predicate IsFor(e: (Value, Option<RawThreshold>), name: string) { name != "" && Strip(Str(e.0)) == name && e.1.Some? }

  /** Entry k is the last one for the category. */
  predicate LastFor(entries: RawThresholds, name: string, k: int) {
    0 <= k < |entries| && IsFor(entries[k], name) && forall j :: k < j < |entries| ==> !IsFor(entries[j], name)
  }

  lemma OneMoreEntry(front: RawThresholds, last: (Value, Option<RawThreshold>), name: string)
    ensures Find(ReadThresholds(front + [last]), name) ==
            if IsFor(last, name) then Some(ReadThreshold(last.1.value)) else Find(ReadThresholds(front), name)
  {
    assert (front + [last])[..|front|] == front;
    if Strip(Str(last.0)) != "" && last.1.Some? {
      PutFinds(ReadThresholds(front), Strip(Str(last.0)), ReadThreshold(last.1.value), name);
    }
    BlankIsNoKey(front);
  }

  lemma {:induction false} BlankIsNoKey(entries: RawThresholds)
    ensures Find(ReadThresholds(entries), "").None?
  {
    if entries != [] {
      var last := entries[|entries| - 1];
      BlankIsNoKey(entries[..|entries| - 1]);
      if Strip(Str(last.0)) != "" && last.1.Some? {
        PutFinds(ReadThresholds(entries[..|entries| - 1]), Strip(Str(last.0)), ReadThreshold(last.1.value), "");
      }
    }
  }

  /** The last entry for a category counts, and a category without one has none. */
  lemma {:induction false} ThresholdIs(entries: RawThresholds, name: string)
    ensures forall k :: LastFor(entries, name, k) ==> Find(ReadThresholds(entries), name) == Some(ReadThreshold(entries[k].1.value))
    ensures Find(ReadThresholds(entries), name).Some? ==> exists k :: LastFor(entries, name, k)
  {
    if entries != [] {
      var front, last := entries[..|entries| - 1], entries[|entries| - 1];
      assert entries == front + [last];
      ThresholdIs(front, name);
      OneMoreEntry(front, last, name);
      forall k ensures LastFor(entries, name, k) <==> if IsFor(last, name) then k == |front| else LastFor(front, name, k) {
        LastStays(front, last, name, k);
      }
      assert IsFor(last, name) ==> LastFor(entries, name, |front|);
    }
  }

  lemma LastStays(front: RawThresholds, last: (Value, Option<RawThreshold>), name: string, k: int)
    ensures LastFor(front + [last], name, k) <==> if IsFor(last, name) then k == |front| else LastFor(front, name, k)
  {
    var all := front + [last];
    assert all[|front|] == last && forall j :: 0 <= j < |front| ==> all[j] == front[j];
  }

  /** What one entry says. */
  lemma ThresholdSays(r: RawThreshold, x: string)
    ensures var t := ReadThreshold(r);
      && t.changedFiles == CountOr(r.changedFiles, 0) && t.diffLines == CountOr(r.diffLines, 0)
      && (x in t.forbidden <==> x != "" && G.Lists(r.forbidden, x)) && (x in t.tests <==> x != "" && G.Lists(r.tests, x))
  {
    ListIs(r.forbidden, x);
    ListIs(r.tests, x);
  }

  // ---- the strict loader ----

  /** A list field must be a list, missing or null. */
  predicate BadList(v: Option<Value>) { v.Some? && !v.value.List? && !v.value.Null? }

  /** A count field must be a number from 0, digits, missing or null. */
  predicate BadCount(v: Option<Value>) {
    v.Some? && !v.value.Null? && !(v.value.Number? && v.value.n >= 0) && !(v.value.Words? && AllDigits(Strip(v.value.text)))
  }

  /** A truth value must be one, 0 or 1, one of six words, missing or null. */
  predicate BadFlag(v: Option<Value>) {
    v.Some? && !v.value.Null? && !v.value.Flag? && v.value != Number(0) && v.value != Number(1)
    && !(v.value.Words? && Lower(Strip(v.value.text)) in {"true", "1", "yes", "false", "0", "no"})
  }

  predicate BadEntry(e: (Value, Option<RawThreshold>)) {
    Strip(Str(e.0)) == "" || e.1.None?
    || BadCount(e.1.value.changedFiles) || BadCount(e.1.value.diffLines)
    || BadList(e.1.value.forbidden) || BadList(e.1.value.tests) || BadFlag(e.1.value.ciGreen)
  }

  predicate SomeBadEntry(entries: RawThresholds) { exists k :: 0 <= k < |entries| && BadEntry(entries[k]) }

  predicate BadAuto(r: RawAuto) {
    || BadList(r.eligible) || BadList(r.autoPr) || BadList(r.generated) || BadList(r.binary) || BadList(r.runtime) || BadList(r.contract)
    || BadCount(r.changedFiles) || BadCount(r.diffLines)
    || r.thresholds.NotAMapping? || (r.thresholds.Mapping? && SomeBadEntry(r.thresholds.body))
  }

  lemma FieldsRefusedIff(v: Option<Value>, texts: seq<string>, n: nat)
    ensures StringTuple(v, texts).Refused? <==> BadList(v)
    ensures NonNegativeInt(v, n).Refused? <==> BadCount(v)
    ensures OptionalBool(v).Refused? <==> BadFlag(v)
  {
    if v.Some? && v.value.Words? { G.BoolWordMeaning(v.value.text); }
  }

  lemma EntryRefusedIff(e: (Value, Option<RawThreshold>))
    ensures Strip(Str(e.0)) == "" || e.1.None? || LoadThreshold(e.1.value).Refused? <==> BadEntry(e)
  {
    if e.1.Some? {
      var r := e.1.value;
      FieldsRefusedIff(r.changedFiles, [], 0);
      FieldsRefusedIff(r.diffLines, [], 0);
      FieldsRefusedIff(r.forbidden, [], 0);
      FieldsRefusedIff(r.tests, [], 0);
      FieldsRefusedIff(r.ciGreen, [], 0);
    }
  }

  lemma OneMoreBad(front: RawThresholds, last: (Value, Option<RawThreshold>))
    ensures SomeBadEntry(front + [last]) <==> SomeBadEntry(front) || BadEntry(last)
  {
    var all := front + [last];
    assert all[|front|] == last;
    if k :| 0 <= k < |front| && BadEntry(front[k]) { assert BadEntry(all[k]); }
  }

  lemma OneMoreLoaded(front: RawThresholds, last: (Value, Option<RawThreshold>))
    ensures LoadThresholds(front + [last]).Refused? <==>
            LoadThresholds(front).Refused? || Strip(Str(last.0)) == "" || last.1.None? || LoadThreshold(last.1.value).Refused?
  {
    assert (front + [last])[..|front|] == front;
  }

  lemma {:induction false} EntriesRefusedIff(entries: RawThresholds)
    ensures LoadThresholds(entries).Refused? <==> SomeBadEntry(entries)
  {
    if entries != [] {
      var front, last := entries[..|entries| - 1], entries[|entries| - 1];
      assert entries == front + [last];
      EntriesRefusedIff(front);
      EntryRefusedIff(last);
      OneMoreBad(front, last);
      OneMoreLoaded(front, last);
    }
  }

  lemma AutoRefusedIff(r: RawAuto)
    ensures LoadAuto(r).Refused? <==> BadAuto(r)
  {
    FieldsRefusedIff(r.eligible, [], 0);
    FieldsRefusedIff(r.autoPr, [], 0);
    FieldsRefusedIff(r.generated, [], 0);
    FieldsRefusedIff(r.binary, [], 0);
    FieldsRefusedIff(r.runtime, [], 0);
    FieldsRefusedIff(r.contract, [], 0);
    FieldsRefusedIff(r.changedFiles, [], 0);
    FieldsRefusedIff(r.diffLines, [], 0);
    EntriesRefusedIff(if r.thresholds.Mapping? then r.thresholds.body else []);
  }

  /** Exactly which documents the loader refuses; all others it loads, as the gate reads them. */
  lemma RefusedIff(raw: RawPolicy)
    ensures Load(raw).Refused? <==>
      || raw.auto.NotAMapping? || raw.write.NotAMapping? || raw.retry.NotAMapping? || BadList(raw.autoMerge)
      || (raw.auto.Mapping? && BadAuto(raw.auto.body))
      || (raw.write.Mapping? && (BadList(raw.write.body.categories) || BadList(raw.write.body.states)))
      || (raw.retry.Mapping? && (BadCount(raw.retry.body.maxAttempts) || BadList(raw.retry.body.retriable)))
  {
    AutoRefusedIff(if raw.auto.Mapping? then raw.auto.body else EMPTY_AUTO);
    var write := if raw.write.Mapping? then raw.write.body else EMPTY_WRITE;
    var retry := if raw.retry.Mapping? then raw.retry.body else EMPTY_RETRY;
    FieldsRefusedIff(write.categories, DEFAULT_CATEGORIES, 0);
    FieldsRefusedIff(write.states, DEFAULT_STATES, 0);
    FieldsRefusedIff(retry.retriable, DEFAULT_RETRIABLE, 0);
    FieldsRefusedIff(retry.maxAttempts, [], DEFAULT_ATTEMPTS);
    FieldsRefusedIff(raw.autoMerge, [], 0);
  }
}
