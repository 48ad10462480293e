/** The merge-gate policy after reading, and the YAML document it is read from. */
module Policies {
  import opened Options
  import opened Text
  import opened Values

  datatype Threshold = Threshold(changedFiles: nat, diffLines: nat, forbidden: seq<string>, tests: seq<string>,
                                 ciGreen: Option<bool>)

  /** A dictionary in insertion order, one entry per name. */
  type Thresholds = seq<(string, Threshold)>

  datatype AutoProgression = AutoProgression(
    eligible: seq<string>, autoPr: seq<string>, changedFiles: nat, diffLines: nat,
    generated: seq<string>, binary: seq<string>, runtime: seq<string>, contract: seq<string>,
    thresholds: Thresholds)

  datatype WriteAuthority = WriteAuthority(enabled: bool, dryRun: bool, killSwitch: bool,
                                           categories: seq<string>, states: seq<string>)

  datatype RetryReplan = RetryReplan(maxAttempts: nat, retriable: seq<string>)

  datatype Switches = Switches(ciGreen: bool, rubricAllPass: bool, declaredEqualsObserved: bool,
                               noForbiddenPaths: bool, sizeWithinLimit: bool)

  datatype Policy = Policy(switches: Switches, autoMerge: seq<string>, auto: AutoProgression,
                           write: WriteAuthority, retry: RetryReplan)

  // ---- dictionaries ----

  /** `d[name] = t`: an old entry keeps its place. */
  function Put(d: Thresholds, name: string, t: Threshold): Thresholds {
    if d == [] then [(name, t)]
    else if d[0].0 == name then [(name, t)] + d[1..]
    else [d[0]] + Put(d[1..], name, t)
  }

  /** `d.get(name)` */
  function Find(d: Thresholds, name: string): Option<Threshold> {
    if d == [] then None else if d[0].0 == name then Some(d[0].1) else Find(d[1..], name)
  }

  predicate Keyed(d: Thresholds, name: string) { exists i :: 0 <= i < |d| && d[i].0 == name }

  predicate OneEach(d: Thresholds) { forall i, j :: 0 <= i < j < |d| ==> d[i].0 != d[j].0 }

  lemma {:induction false} PutKeys(d: Thresholds, name: string, t: Threshold)
    ensures |Put(d, name, t)| == |d| + if Keyed(d, name) then 0 else 1
    ensures forall i :: 0 <= i < |d| ==> Put(d, name, t)[i].0 == d[i].0
    ensures forall e :: e in Put(d, name, t) ==> e == (name, t) || e in d
    ensures !Keyed(d, name) ==> Put(d, name, t) == d + [(name, t)]
    ensures OneEach(d) ==> OneEach(Put(d, name, t))
  {
    if d != [] && d[0].0 != name {
      PutKeys(d[1..], name, t);
      assert d == [d[0]] + d[1..];
      assert Keyed(d, name) ==> exists i :: 0 <= i < |d| - 1 && d[1..][i].0 == name by {
        if Keyed(d, name) {
          var i :| 0 <= i < |d| && d[i].0 == name;
          assert d[1..][i - 1].0 == name;
        }
      }
    }
  }

  // ---- the document ----

  /** A mapping is consulted at fixed keys only: a record of values, `None` where the key is missing. */
  datatype RawThreshold = RawThreshold(changedFiles: Option<Value>, diffLines: Option<Value>, forbidden: Option<Value>,
                                       tests: Option<Value>, ciGreen: Option<Value>)

  /** `None` is an entry whose body is not a mapping. */
  type RawThresholds = seq<(Value, Option<RawThreshold>)>

  datatype Section<T> = Missing | NotAMapping | Mapping(body: T)

  datatype RawAuto = RawAuto(
    eligible: Option<Value>, autoPr: Option<Value>, changedFiles: Option<Value>, diffLines: Option<Value>,
    generated: Option<Value>, binary: Option<Value>, runtime: Option<Value>, contract: Option<Value>,
    thresholds: Section<RawThresholds>)

  datatype RawWrite = RawWrite(enabled: Option<Value>, dryRun: Option<Value>, killSwitch: Option<Value>,
                               categories: Option<Value>, states: Option<Value>)

  datatype RawRetry = RawRetry(maxAttempts: Option<Value>, retriable: Option<Value>)

  datatype RawSwitches = RawSwitches(ciGreen: Option<Value>, rubricAllPass: Option<Value>,
    declaredEqualsObserved: Option<Value>, noForbiddenPaths: Option<Value>, sizeWithinLimit: Option<Value>)

  datatype RawPolicy = RawPolicy(switches: RawSwitches, autoMerge: Option<Value>, auto: Section<RawAuto>,
                                 write: Section<RawWrite>, retry: Section<RawRetry>)

  const EMPTY_AUTO := RawAuto(None, None, None, None, None, None, None, None, Missing)
  const EMPTY_WRITE := RawWrite(None, None, None, None, None)
  const EMPTY_RETRY := RawRetry(None, None)

  /** `bool(raw.get(key, default))` */
  predicate Switch(v: Option<Value>, default: bool) { if v.Some? then Truthy(v.value) else default }

  function SwitchesOf(r: RawSwitches): Switches {
    Switches(Switch(r.ciGreen, true), Switch(r.rubricAllPass, true), Switch(r.declaredEqualsObserved, true),
             Switch(r.noForbiddenPaths, true), Switch(r.sizeWithinLimit, true))
  }

  /** The words for a boolean, after stripping and lower-casing. */
  function BoolWord(text: string): Option<bool> {
    var word := Lower(Strip(text));
    if word == "true" || word == "1" || word == "yes" then Some(true)
    else if word == "false" || word == "0" || word == "no" then Some(false)
    else None
  }

  // ---- a policy that was read, handed on as a document again ----

  function AsFlag(b: bool): Option<Value> { Some(Flag(b)) }
  function AsNumber(n: nat): Option<Value> { Some(Number(n)) }
  function AsTuple(texts: seq<string>): Option<Value> { Some(Quoted(texts)) }

  function ThresholdDocument(t: Threshold): RawThreshold {
    RawThreshold(AsNumber(t.changedFiles), AsNumber(t.diffLines), AsTuple(t.forbidden), AsTuple(t.tests),
                 Some(if t.ciGreen.Some? then Flag(t.ciGreen.value) else Null))
  }

  function ThresholdsDocument(d: Thresholds): RawThresholds {
    seq(|d|, i requires 0 <= i < |d| => (Words(d[i].0), Some(ThresholdDocument(d[i].1))))
  }

  function AutoDocument(a: AutoProgression): RawAuto {
    RawAuto(AsTuple(a.eligible), AsTuple(a.autoPr), AsNumber(a.changedFiles), AsNumber(a.diffLines),
            AsTuple(a.generated), AsTuple(a.binary), AsTuple(a.runtime), AsTuple(a.contract),
            Mapping(ThresholdsDocument(a.thresholds)))
  }

  function Document(p: Policy): RawPolicy {
    RawPolicy(
      RawSwitches(AsFlag(p.switches.ciGreen), AsFlag(p.switches.rubricAllPass), AsFlag(p.switches.declaredEqualsObserved),
                  AsFlag(p.switches.noForbiddenPaths), AsFlag(p.switches.sizeWithinLimit)),
      AsTuple(p.autoMerge),
      Mapping(AutoDocument(p.auto)),
      Mapping(RawWrite(AsFlag(p.write.enabled), AsFlag(p.write.dryRun), AsFlag(p.write.killSwitch),
                       AsTuple(p.write.categories), AsTuple(p.write.states))),
      Mapping(RawRetry(AsNumber(p.retry.maxAttempts), AsTuple(p.retry.retriable))))
  }

  // ---- what every read policy satisfies ----

  predicate TidyThreshold(t: Threshold) { AllClean(t.forbidden) && AllClean(t.tests) }

  predicate TidyThresholds(d: Thresholds) {
    OneEach(d) && forall e :: e in d ==> Clean(e.0) && TidyThreshold(e.1)
  }

  predicate TidyAuto(a: AutoProgression) {
    && AllClean(a.eligible) && AllClean(a.autoPr)
    && AllClean(a.generated) && AllClean(a.binary) && AllClean(a.runtime) && AllClean(a.contract)
    && TidyThresholds(a.thresholds)
  }

  predicate Tidy(p: Policy) {
    && AllClean(p.autoMerge) && TidyAuto(p.auto)
    && AllClean(p.write.categories) && p.write.categories != []
    && AllClean(p.write.states) && p.write.states != []
    && AllClean(p.retry.retriable) && p.retry.retriable != []
  }

  /** The one thing the gate changes in a policy it is handed: binary extensions become lower case. */
  function Lowered(p: Policy): Policy { p.(auto := LoweredAuto(p.auto)) }

  function LoweredAuto(a: AutoProgression): AutoProgression { a.(binary := LowerAll(a.binary)) }

  function LowerAll(texts: seq<string>): seq<string> {
    seq(|texts|, i requires 0 <= i < |texts| => Lower(texts[i]))
  }
}
