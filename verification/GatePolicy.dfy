/** The gate's own lenient reading of its policy (orchestrator/merge_gate.py) and its agreement with the strict loader. */
module GatePolicy {
  import opened Options
  import opened Text
  import opened Values
  import opened Policies
  import opened PolicyLoader

  function TupleOf(v: Option<Value>): seq<string> {
    match v
    case Some(List(items, _)) => Texts(items)
    case Some(Tuple(items, _)) => Texts(items)
    case _ => []
  }

  function CountOrZero(v: Option<Value>): nat {
    match v
    case Some(Number(n)) => if n < 0 then 0 else n
    case Some(Words(text)) => if IsCount(text) then CountOf(text) else 0
    case _ => 0
  }

  function MaybeBool(v: Option<Value>): Option<bool> {
    match v
    case Some(Flag(on)) => Some(on)
    case Some(Number(n)) => if n == 0 || n == 1 then Some(n == 1) else None
    case Some(Words(text)) => BoolWord(text)
    case _ => None
  }

  function ReadThreshold(r: RawThreshold): Threshold {
    Threshold(CountOrZero(r.changedFiles), CountOrZero(r.diffLines), TupleOf(r.forbidden), TupleOf(r.tests), MaybeBool(r.ciGreen))
  }

  /** Entries without a name or a mapping are passed over. */
  function ReadThresholds(entries: RawThresholds): Thresholds {
    if entries == [] then []
    else
      var (key, body) := entries[|entries| - 1];
      var before := ReadThresholds(entries[..|entries| - 1]);
      var name := Strip(Str(key));
      if name == "" || body.None? then before else Put(before, name, ReadThreshold(body.value))
  }

  method CollectThresholds(entries: RawThresholds) returns (result: Thresholds)
    ensures result == ReadThresholds(entries)
  {
    result := [];
    for i := 0 to |entries|
      invariant result == ReadThresholds(entries[..i])
    {
      assert entries[..i + 1][..i] == entries[..i];
      var (key, body) := entries[i];
      var name := Strip(Str(key));
      if name != "" && body.Some? {
        result := Put(result, name, ReadThreshold(body.value));
      }
    }
    assert entries[..|entries|] == entries;
  }

  function BodyOr<T>(s: Section<T>, empty: T): T { if s.Mapping? then s.body else empty }

  function ReadAuto(s: Section<RawAuto>): AutoProgression {
    var r := BodyOr(s, EMPTY_AUTO);
    AutoProgression(TupleOf(r.eligible), TupleOf(r.autoPr), CountOrZero(r.changedFiles), CountOrZero(r.diffLines),
                    TupleOf(r.generated), LowerAll(TupleOf(r.binary)), TupleOf(r.runtime), TupleOf(r.contract),
                    ReadThresholds(BodyOr(r.thresholds, [])))
  }

  function ReadWrite(s: Section<RawWrite>): WriteAuthority {
    var r := BodyOr(s, EMPTY_WRITE);
    WriteAuthority(Switch(r.enabled, false), Switch(r.dryRun, true), Switch(r.killSwitch, true),
                   OrElse(TupleOf(r.categories), DEFAULT_CATEGORIES), OrElse(TupleOf(r.states), DEFAULT_STATES))
  }

  function MaxAttempts(v: Option<Value>): nat {
    match v
    case Some(Number(n)) => if n < 0 then 0 else n
    case Some(Words(text)) => if IsCount(text) then CountOf(text) else DEFAULT_ATTEMPTS
    case _ => DEFAULT_ATTEMPTS
  }

  function ReadRetry(s: Section<RawRetry>): RetryReplan {
    var r := BodyOr(s, EMPTY_RETRY);
    RetryReplan(MaxAttempts(r.maxAttempts), OrElse(TupleOf(r.retriable), DEFAULT_RETRIABLE))
  }

  /** The policy the gate acts on when it is handed this document. */
  function GateReading(raw: RawPolicy): Policy {
    Policy(SwitchesOf(raw.switches), TupleOf(raw.autoMerge), ReadAuto(raw.auto), ReadWrite(raw.write), ReadRetry(raw.retry))
  }

  // ---- every reading is tidy ----

  lemma TupleOfIsClean(v: Option<Value>)
    ensures AllClean(TupleOf(v))
  {
    match v
    case Some(List(items, _)) => TextsAreClean(items);
    case Some(Tuple(items, _)) => TextsAreClean(items);
    case _ =>
  }

  lemma ReadThresholdIsTidy(r: RawThreshold)
    ensures TidyThreshold(ReadThreshold(r))
  {
    TupleOfIsClean(r.forbidden);
    TupleOfIsClean(r.tests);
  }

  lemma PutKeepsTidy(d: Thresholds, name: string, t: Threshold)
    requires TidyThresholds(d) && Clean(name) && TidyThreshold(t)
    ensures TidyThresholds(Put(d, name, t))
  {
    PutKeys(d, name, t);
  }

  lemma {:induction false} ReadThresholdsAreTidy(entries: RawThresholds)
    ensures TidyThresholds(ReadThresholds(entries))
  {
    if entries != [] {
      var (key, body) := entries[|entries| - 1];
      ReadThresholdsAreTidy(entries[..|entries| - 1]);
      StripIdempotent(Str(key));
      if body.Some? && Strip(Str(key)) != "" {
        ReadThresholdIsTidy(body.value);
        PutKeepsTidy(ReadThresholds(entries[..|entries| - 1]), Strip(Str(key)), ReadThreshold(body.value));
      }
    }
  }

  lemma LowerAllIsClean(texts: seq<string>)
    requires AllClean(texts)
    ensures AllClean(LowerAll(texts)) && LowerAll(LowerAll(texts)) == LowerAll(texts)
  {
    forall i | 0 <= i < |texts| ensures Clean(LowerAll(texts)[i]) && LowerAll(LowerAll(texts))[i] == LowerAll(texts)[i] {
      assert Clean(texts[i]);
      LowerSettles(texts[i]);
    }
  }

  lemma ReadAutoIsTidy(s: Section<RawAuto>)
    ensures TidyAuto(ReadAuto(s)) && LoweredAuto(ReadAuto(s)) == ReadAuto(s)
  {
    var r := BodyOr(s, EMPTY_AUTO);
    TupleOfIsClean(r.eligible);
    TupleOfIsClean(r.autoPr);
    TupleOfIsClean(r.generated);
    TupleOfIsClean(r.binary);
    TupleOfIsClean(r.runtime);
    TupleOfIsClean(r.contract);
    LowerAllIsClean(TupleOf(r.binary));
    ReadThresholdsAreTidy(BodyOr(r.thresholds, []));
  }

  lemma DefaultsAreClean()
    ensures AllClean(DEFAULT_CATEGORIES) && AllClean(DEFAULT_STATES) && AllClean(DEFAULT_RETRIABLE)
  {
  }

  /** Whatever document the gate is handed, it acts on clean texts, unique category names, non-empty write
      categories, lifecycle states and retriable failures, and lower-case extensions. */
  lemma GateReadingIsTidy(raw: RawPolicy)
    ensures Tidy(GateReading(raw)) && Lowered(GateReading(raw)) == GateReading(raw)
  {
    DefaultsAreClean();
    ReadAutoIsTidy(raw.auto);
    TupleOfIsClean(raw.autoMerge);
    TupleOfIsClean(BodyOr(raw.write, EMPTY_WRITE).categories);
    TupleOfIsClean(BodyOr(raw.write, EMPTY_WRITE).states);
    TupleOfIsClean(BodyOr(raw.retry, EMPTY_RETRY).retriable);
  }

  // ---- a tidy policy reads back ----

  lemma ThresholdReadsBack(t: Threshold)
    requires TidyThreshold(t)
    ensures ReadThreshold(ThresholdDocument(t)) == t
  {
    CleanTextsReadBack(t.forbidden);
    CleanTextsReadBack(t.tests);
  }

  lemma {:induction false} ThresholdsReadBack(d: Thresholds)
    requires TidyThresholds(d)
    ensures ReadThresholds(ThresholdsDocument(d)) == d
  {
    if d != [] {
      var front, last := d[..|d| - 1], d[|d| - 1];
      ThresholdsReadBack(front);
      assert ThresholdsDocument(d)[..|d| - 1] == ThresholdsDocument(front);
      assert TidyThreshold(last.1) && Clean(last.0);
      ThresholdReadsBack(last.1);
      StripIdempotent(last.0);
      PutKeys(front, last.0, last.1);
      assert d == front + [last];
    }
  }

  lemma AutoReadsBack(a: AutoProgression)
    requires TidyAuto(a)
    ensures ReadAuto(Mapping(AutoDocument(a))) == LoweredAuto(a)
  {
    CleanTextsReadBack(a.eligible);
    CleanTextsReadBack(a.autoPr);
    CleanTextsReadBack(a.generated);
    CleanTextsReadBack(a.binary);
    CleanTextsReadBack(a.runtime);
    CleanTextsReadBack(a.contract);
    ThresholdsReadBack(a.thresholds);
  }

  lemma TidyPolicyReadsBack(p: Policy)
    requires Tidy(p)
    ensures GateReading(Document(p)) == Lowered(p)
  {
    AutoReadsBack(p.auto);
    CleanTextsReadBack(p.autoMerge);
    CleanTextsReadBack(p.write.categories);
    CleanTextsReadBack(p.write.states);
    CleanTextsReadBack(p.retry.retriable);
  }

  /** The gate's reading is idempotent: handing its result back to it changes nothing. */
  lemma GateReadingSettles(raw: RawPolicy)
    ensures GateReading(Document(GateReading(raw))) == GateReading(raw)
  {
    GateReadingIsTidy(raw);
    TidyPolicyReadsBack(GateReading(raw));
  }

  // ---- strict and lenient agree ----

  lemma {:induction false} ThresholdsAgree(entries: RawThresholds)
    requires LoadThresholds(entries).Loaded?
    ensures LoadThresholds(entries).value == ReadThresholds(entries)
  {
    if entries != [] { ThresholdsAgree(entries[..|entries| - 1]); }
  }

  lemma AutoAgrees(s: Section<RawAuto>)
    requires !s.NotAMapping? && LoadAuto(BodyOr(s, EMPTY_AUTO)).Loaded?
    ensures LoweredAuto(LoadAuto(BodyOr(s, EMPTY_AUTO)).value) == ReadAuto(s)
    ensures LoadAuto(BodyOr(s, EMPTY_AUTO)).value.binary == TupleOf(BodyOr(s, EMPTY_AUTO).binary)
  {
    ThresholdsAgree(BodyOr(BodyOr(s, EMPTY_AUTO).thresholds, []));
  }

  lemma LoadedAutoIsTidy(s: Section<RawAuto>)
    requires !s.NotAMapping? && LoadAuto(BodyOr(s, EMPTY_AUTO)).Loaded?
    ensures TidyAuto(LoadAuto(BodyOr(s, EMPTY_AUTO)).value)
  {
    AutoAgrees(s);
    TidyButLowered(LoadAuto(BodyOr(s, EMPTY_AUTO)).value, s);
  }

  lemma TidyButLowered(a: AutoProgression, s: Section<RawAuto>)
    requires LoweredAuto(a) == ReadAuto(s) && a.binary == TupleOf(BodyOr(s, EMPTY_AUTO).binary)
    ensures TidyAuto(a)
  {
    ReadAutoIsTidy(s);
    TupleOfIsClean(BodyOr(s, EMPTY_AUTO).binary);
  }

  lemma WriteAgrees(s: Section<RawWrite>)
    requires !s.NotAMapping? && LoadWrite(BodyOr(s, EMPTY_WRITE)).Loaded?
    ensures LoadWrite(BodyOr(s, EMPTY_WRITE)).value == ReadWrite(s)
  {
  }

  lemma RetryAgrees(s: Section<RawRetry>)
    requires !s.NotAMapping? && LoadRetry(BodyOr(s, EMPTY_RETRY)).Loaded?
    ensures LoadRetry(BodyOr(s, EMPTY_RETRY)).value == ReadRetry(s)
  {
  }

  /** On every document the strict loader accepts, the gate acts on the loaded policy itself up to lower-casing
      of binary extensions, whether it is handed the loader's result or the document. */
  lemma LoaderAndGateAgree(raw: RawPolicy)
    requires Load(raw).Loaded?
    ensures GateReading(Document(Load(raw).value)) == Lowered(Load(raw).value)
    ensures GateReading(raw) == Lowered(Load(raw).value)
  {
    AutoAgrees(raw.auto);
    LoadedAutoIsTidy(raw.auto);
    WriteAgrees(raw.write);
    RetryAgrees(raw.retry);
    GateReadingIsTidy(raw);
    TidyPolicyReadsBack(Load(raw).value);
  }
}
