/** The strict policy loader (orchestrator/policy_loader.py): a document it does not understand is refused. */
module PolicyLoader {
  import opened Options
  import opened Text
  import opened Values
  import opened Policies

  function StringTuple(v: Option<Value>, default: seq<string>): Loaded<seq<string>> {
    match v
    case None => Loaded(default)
    case Some(Null) => Loaded([])
    case Some(List(items, _)) => Loaded(Texts(items))
    case Some(_) => Refused
  }

  function NonNegativeInt(v: Option<Value>, default: nat): Loaded<nat> {
    match v
    case None => Loaded(default)
    case Some(Null) => Loaded(default)
    case Some(Number(n)) => if n < 0 then Refused else Loaded(n)
    case Some(Words(text)) => if IsCount(text) then Loaded(CountOf(text)) else Refused
    case Some(_) => Refused
  }

  function OptionalBool(v: Option<Value>): Loaded<Option<bool>> {
    match v
    case None => Loaded(None)
    case Some(Null) => Loaded(None)
    case Some(Flag(on)) => Loaded(Some(on))
    case Some(Number(n)) => if n == 0 || n == 1 then Loaded(Some(n == 1)) else Refused
    case Some(Words(text)) => if BoolWord(text).Some? then Loaded(BoolWord(text)) else Refused
    case Some(_) => Refused
  }

  function LoadThreshold(r: RawThreshold): Loaded<Threshold> {
    var changedFiles :- NonNegativeInt(r.changedFiles, 0);
    var diffLines :- NonNegativeInt(r.diffLines, 0);
    var forbidden :- StringTuple(r.forbidden, []);
    var tests :- StringTuple(r.tests, []);
    var ciGreen :- OptionalBool(r.ciGreen);
    Loaded(Threshold(changedFiles, diffLines, forbidden, tests, ciGreen))
  }

  /** The entries from the first on; a blank name, a body that is no mapping or a bad field refuses all. */
  function LoadThresholds(entries: RawThresholds): Loaded<Thresholds> {
    if entries == [] then Loaded([])
    else
      var (key, body) := entries[|entries| - 1];
      var before :- LoadThresholds(entries[..|entries| - 1]);
      var name := Strip(Str(key));
      if name == "" || body.None? then Refused
      else
        var t :- LoadThreshold(body.value);
        Loaded(Put(before, name, t))
  }

  function SectionBody<T>(s: Section<T>, missing: T): Loaded<T> {
    match s
    case Missing => Loaded(missing)
    case NotAMapping => Refused
    case Mapping(body) => Loaded(body)
  }

  function LoadAuto(r: RawAuto): Loaded<AutoProgression> {
    var eligible :- StringTuple(r.eligible, []);
    var autoPr :- StringTuple(r.autoPr, []);
    var changedFiles :- NonNegativeInt(r.changedFiles, 0);
    var diffLines :- NonNegativeInt(r.diffLines, 0);
    var generated :- StringTuple(r.generated, []);
    var binary :- StringTuple(r.binary, []);
    var runtime :- StringTuple(r.runtime, []);
    var contract :- StringTuple(r.contract, []);
    var entries :- SectionBody(r.thresholds, []);
    var thresholds :- LoadThresholds(entries);
    Loaded(AutoProgression(eligible, autoPr, changedFiles, diffLines, generated, binary, runtime, contract, thresholds))
  }

  function OrElse(texts: seq<string>, default: seq<string>): seq<string> { if texts == [] then default else texts }

  const DEFAULT_CATEGORIES := ["docs_only"]
  const DEFAULT_STATES := ["approved_for_merge"]
  const DEFAULT_RETRIABLE := ["execution_failure", "missing_signal"]
  const DEFAULT_ATTEMPTS: nat := 2

  function LoadWrite(r: RawWrite): Loaded<WriteAuthority> {
    var categories :- StringTuple(r.categories, DEFAULT_CATEGORIES);
    var states :- StringTuple(r.states, DEFAULT_STATES);
    Loaded(WriteAuthority(Switch(r.enabled, false), Switch(r.dryRun, true), Switch(r.killSwitch, true),
                          OrElse(categories, DEFAULT_CATEGORIES), OrElse(states, DEFAULT_STATES)))
  }

  function LoadRetry(r: RawRetry): Loaded<RetryReplan> {
    var retriable :- StringTuple(r.retriable, DEFAULT_RETRIABLE);
    var maxAttempts :- NonNegativeInt(r.maxAttempts, DEFAULT_ATTEMPTS);
    Loaded(RetryReplan(maxAttempts, OrElse(retriable, DEFAULT_RETRIABLE)))
  }

  function Load(raw: RawPolicy): Loaded<Policy> {
    var autoBody :- SectionBody(raw.auto, EMPTY_AUTO);
    var writeBody :- SectionBody(raw.write, EMPTY_WRITE);
    var retryBody :- SectionBody(raw.retry, EMPTY_RETRY);
    var auto :- LoadAuto(autoBody);
    var write :- LoadWrite(writeBody);
    var retry :- LoadRetry(retryBody);
    var autoMerge :- StringTuple(raw.autoMerge, []);
    Loaded(Policy(SwitchesOf(raw.switches), autoMerge, auto, write, retry))
  }

  // ---- the two loops ----

  method CollectTexts(items: seq<Value>) returns (result: seq<string>)
    ensures result == Texts(items)
  {
    result := [];
    for i := 0 to |items|
      invariant result == Texts(items[..i])
    {
      assert items[..i + 1][..i] == items[..i];
      var text := Strip(Str(items[i]));
      if text != "" {
        result := result + [text];
      }
    }
    assert items[..|items|] == items;
  }

  lemma {:induction false} RefusedPrefix(entries: RawThresholds, k: nat)
    requires k <= |entries| && LoadThresholds(entries[..k]).Refused?
    ensures LoadThresholds(entries).Refused?
  {
    if k == |entries| {
      assert entries[..k] == entries;
    } else {
      assert entries[..|entries| - 1][..k] == entries[..k];
      RefusedPrefix(entries[..|entries| - 1], k);
    }
  }

  /** Stops at the first entry it does not understand. */
  method CollectThresholds(entries: RawThresholds) returns (result: Loaded<Thresholds>)
    ensures result == LoadThresholds(entries)
  {
    var d: Thresholds := [];
    for i := 0 to |entries|
      invariant LoadThresholds(entries[..i]) == Loaded(d)
    {
      assert entries[..i + 1][..i] == entries[..i];
      var (key, body) := entries[i];
      var name := Strip(Str(key));
      var t := if name == "" || body.None? then Refused else LoadThreshold(body.value);
      if t.Refused? {
        RefusedPrefix(entries, i + 1);
        return Refused;
      }
      d := Put(d, name, t.value);
    }
    assert entries[..|entries|] == entries;
    return Loaded(d);
  }
}
