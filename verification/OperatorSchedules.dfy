/** Daily times of operator schedules (orchestrator/operator_schedules.py). */
module OperatorSchedules {
  import opened Options
  import opened Text
  import opened Values

  // ---- reading and printing one time ----

  datatype DailyTime = DailyTime(text: string, minute: nat)

  /** Two digits, zero-padded: `{n:02d}` below 100. */
  function TwoDigits(n: nat): (s: string)
    requires n < 100
    ensures |s| == 2 && AllDigits(s)
  {
    [Digit(n / 10), Digit(n % 10)]
  }

  function Label(hour: nat, minute: nat): (s: string)
    requires hour < 24 && minute < 60
    ensures |s| == 5
  {
    TwoDigits(hour) + ":" + TwoDigits(minute)
  }

  /** Index of the first colon, or the length. */
  function Colon(s: string): (k: nat)
    ensures k <= |s| && (k < |s| ==> s[k] == ':') && forall i :: 0 <= i < k ==> s[i] != ':'
  {
    if s == "" || s[0] == ':' then 0 else Colon(s[1..]) + 1
  }

  function ReadTime(hours: string, minutes: string): Loaded<DailyTime> {
    if !AllDigits(hours) || !AllDigits(minutes) || Text.Value(hours) > 23 || Text.Value(minutes) > 59 then Refused
    else Loaded(DailyTime(Label(Text.Value(hours), Text.Value(minutes)), Text.Value(hours) * 60 + Text.Value(minutes)))
  }

  function ParseText(text: string): Loaded<DailyTime> {
    var k := Colon(text);
    if k == |text| then Refused else ReadTime(text[..k], text[k + 1..])
  }

  function ParseDailyTime(v: Value): Loaded<DailyTime> { ParseText(Strip(Str(v))) }

  /** The text is digits, a colon and digits. */
  predicate Spells(text: string, hours: string, minutes: string) {
    text == hours + ":" + minutes && AllDigits(hours) && AllDigits(minutes)
  }

  /** Read as hours and minutes, the digits are on a clock and make this minute of the day. */
  predicate OnClock(hours: string, minutes: string, minuteOfDay: nat)
    requires AllDigits(hours) && AllDigits(minutes)
  {
    Text.Value(hours) < 24 && Text.Value(minutes) < 60 && minuteOfDay == Text.Value(hours) * 60 + Text.Value(minutes)
  }

  ghost predicate DenotedBy(text: string, minuteOfDay: nat) {
    exists hours, minutes :: Spells(text, hours, minutes) && OnClock(hours, minutes, minuteOfDay)
  }

  ghost predicate Denotes(v: Value, minuteOfDay: nat) { DenotedBy(Strip(Str(v)), minuteOfDay) }

  lemma SplitIsUnique(text: string, hours: string, minutes: string)
    requires Spells(text, hours, minutes)
    ensures Colon(text) == |hours| && text[..|hours|] == hours && text[|hours| + 1..] == minutes
  {
    assert text[|hours|] == ':' && forall i :: 0 <= i < |hours| ==> IsDigit(text[i]) by {
      assert forall i :: 0 <= i < |hours| ==> text[i] == hours[i];
    }
  }

  lemma ReadingDenotes(text: string)
    requires ParseText(text).Loaded?
    ensures DenotedBy(text, ParseText(text).value.minute)
  {
    var k := Colon(text);
    assert Spells(text, text[..k], text[k + 1..]) && OnClock(text[..k], text[k + 1..], ParseText(text).value.minute);
  }

  lemma DenotedIsRead(text: string, n: nat)
    requires DenotedBy(text, n)
    ensures ParseText(text).Loaded? && ParseText(text).value.minute == n < 1440
  {
    var hours, minutes :| Spells(text, hours, minutes) && OnClock(hours, minutes, n);
    SplitIsUnique(text, hours, minutes);
  }

  /** The reading accepts exactly the values that denote a minute of the day, and finds that minute. */
  lemma ParseIff(v: Value, n: nat)
    ensures ParseDailyTime(v).Loaded? && ParseDailyTime(v).value.minute == n <==> Denotes(v, n)
    ensures Denotes(v, n) ==> n < 1440
  {
    var text := Strip(Str(v));
    if ParseText(text).Loaded? { ReadingDenotes(text); }
    if DenotedBy(text, n) { DenotedIsRead(text, n); }
  }

  lemma DigitReads(n: nat)
    requires n < 10
    ensures Text.Value([Digit(n)]) == n
  {
    assert [Digit(n)][..0] == "";
  }

  lemma TwoDigitsRead(n: nat)
    requires n < 100
    ensures Text.Value(TwoDigits(n)) == n
  {
    var s := TwoDigits(n);
    assert s[..1] == [Digit(n / 10)];
    DigitReads(n / 10);
    assert Text.Value(s) == 10 * Text.Value(s[..1]) + n % 10;
  }

  /** A printed time reads back as itself. */
  lemma LabelReadsBack(hour: nat, minute: nat)
    requires hour < 24 && minute < 60
    ensures ParseDailyTime(Words(Label(hour, minute))) == Loaded(DailyTime(Label(hour, minute), hour * 60 + minute))
  {
    var s := Label(hour, minute);
    assert Stripped(s) by { assert IsDigit(s[0]) && IsDigit(s[4]); }
    StripIdempotent(s);
    assert Spells(s, TwoDigits(hour), TwoDigits(minute));
    SplitIsUnique(s, TwoDigits(hour), TwoDigits(minute));
    TwoDigitsRead(hour);
    TwoDigitsRead(minute);
  }

  /** Normalising settles: the label of a time that was read is read as the same time. */
  lemma NormalisingSettles(v: Value)
    requires ParseDailyTime(v).Loaded?
    ensures ParseDailyTime(Words(ParseDailyTime(v).value.text)) == ParseDailyTime(v)
  {
    var text := Strip(Str(v));
    var k := Colon(text);
    SameReading(text[..k], text[k + 1..]);
  }

  lemma SameReading(hours: string, minutes: string)
    requires ReadTime(hours, minutes).Loaded?
    ensures ParseDailyTime(Words(ReadTime(hours, minutes).value.text)) == ReadTime(hours, minutes)
  {
    LabelReadsBack(Text.Value(hours), Text.Value(minutes));
  }

  // ---- the times of one schedule ----

  function Readings(items: seq<Value>): seq<Loaded<DailyTime>> {
    seq(|items|, i requires 0 <= i < |items| => ParseDailyTime(items[i]))
  }

  predicate AllRead(rs: seq<Loaded<DailyTime>>) { forall i :: 0 <= i < |rs| ==> rs[i].Loaded? }

  /** Labels of all readings; one refused reading refuses all. */
  function LabelsOf(rs: seq<Loaded<DailyTime>>): Loaded<seq<string>> {
    if AllRead(rs) then Loaded(seq(|rs|, i requires 0 <= i < |rs| && AllRead(rs) => rs[i].value.text)) else Refused
  }

  function MinutesOf(rs: seq<Loaded<DailyTime>>): Loaded<seq<nat>> {
    if AllRead(rs) then Loaded(seq(|rs|, i requires 0 <= i < |rs| && AllRead(rs) => rs[i].value.minute)) else Refused
  }

  function Labels(items: seq<Value>): Loaded<seq<string>> { LabelsOf(Readings(items)) }

  function Minutes(labels: seq<string>): Loaded<seq<nat>> { MinutesOf(Readings(Quoted(labels).items)) }

  datatype Trigger = Trigger(times: seq<string>, minutes: seq<nat>)

  /** The loader: a non-empty list of times. */
  function LoadTrigger(times: Option<Value>): Loaded<Trigger> {
    match times
    case Some(List(items, _)) =>
      var labels :- Labels(items);
      if labels == [] then Refused
      else
        var minutes :- Minutes(labels);
        Loaded(Trigger(labels, minutes))
    case _ => Refused
  }

  /** The run-time path for a trigger without minutes: None leaves it as it is, never due. */
  function RuntimeTrigger(times: Option<Value>): Loaded<Option<Trigger>> {
    match times
    case Some(List(items, _)) => FromItems(items)
    case Some(Tuple(items, _)) => FromItems(items)
    case _ => Loaded(None)
  }

  function FromItems(items: seq<Value>): Loaded<Option<Trigger>> {
    var labels :- Labels(items);
    var minutes :- Minutes(labels);
    Loaded(Some(Trigger(labels, minutes)))
  }

  /** The loop of `_as_daily_times` over the readings of the items. */
  method CollectLabels(rs: seq<Loaded<DailyTime>>) returns (r: Loaded<seq<string>>)
    ensures r == if rs == [] then Refused else LabelsOf(rs)
  {
    var parsed: seq<string> := [];
    for i := 0 to |rs|
      invariant |parsed| == i && forall j :: 0 <= j < i ==> rs[j].Loaded? && parsed[j] == rs[j].value.text
    {
      if rs[i].Refused? { return Refused; }
      parsed := parsed + [rs[i].value.text];
    }
    assert AllRead(rs) && parsed == LabelsOf(rs).value;
    return if parsed == [] then Refused else Loaded(parsed);
  }

  /** The second parse of each label gives what the first parse of the item gave. */
  lemma ReadingsSettle(items: seq<Value>)
    requires AllRead(Readings(items))
    ensures Readings(Quoted(Labels(items).value).items) == Readings(items)
  {
    var rs, again := Readings(items), Readings(Quoted(Labels(items).value).items);
    forall i | 0 <= i < |items| ensures again[i] == rs[i] {
      assert rs[i].Loaded?;
      NormalisingSettles(items[i]);
    }
  }

  /** Wherever the loader accepts the times, the run-time path gives the same trigger, from the raw times as well as
      from the loaded ones. */
  lemma LoaderAndRuntimeAgree(times: Option<Value>)
    requires LoadTrigger(times).Loaded?
    ensures RuntimeTrigger(times) == Loaded(Some(LoadTrigger(times).value))
    ensures RuntimeTrigger(Some(Quoted(LoadTrigger(times).value.times))) == Loaded(Some(LoadTrigger(times).value))
  {
    ReadingsSettle(times.value.items);
  }

  // ---- due ----

  predicate Due(enabled: bool, trigger: Option<Trigger>, hour: nat, minute: nat) {
    enabled && trigger.Some? && hour * 60 + minute in trigger.value.minutes
  }

  /** A loaded schedule is due exactly when it is enabled and one of the configured values denotes the local minute. */
  lemma DueIff(enabled: bool, items: seq<Value>, shown: string, hour: nat, minute: nat)
    requires LoadTrigger(Some(List(items, shown))).Loaded?
    ensures Due(enabled, Some(LoadTrigger(Some(List(items, shown))).value), hour, minute) <==>
            enabled && exists i :: 0 <= i < |items| && Denotes(items[i], hour * 60 + minute)
  {
    var n := hour * 60 + minute;
    ReadingsSettle(items);
    InMinutes(Readings(items), n);
    if SomeReads(Readings(items), n) {
      var i :| 0 <= i < |items| && Readings(items)[i].value.minute == n;
      OneReading(items, i, n);
    }
    if i :| 0 <= i < |items| && Denotes(items[i], n) { OneReading(items, i, n); }
  }

  predicate SomeReads(rs: seq<Loaded<DailyTime>>, n: nat)
    requires AllRead(rs)
  {
    exists i :: 0 <= i < |rs| && rs[i].value.minute == n
  }

  lemma InMinutes(rs: seq<Loaded<DailyTime>>, n: nat)
    requires AllRead(rs)
    ensures n in MinutesOf(rs).value <==> SomeReads(rs, n)
  {
    var minutes := MinutesOf(rs).value;
    if i :| 0 <= i < |rs| && rs[i].value.minute == n { assert minutes[i] == n; }
    if i :| 0 <= i < |minutes| && minutes[i] == n { assert rs[i].value.minute == n; }
  }

  lemma OneReading(items: seq<Value>, i: nat, n: nat)
    requires i < |items| && AllRead(Readings(items))
    ensures Readings(items)[i].Loaded? && (Readings(items)[i].value.minute == n <==> Denotes(items[i], n))
  {
    ParseIff(items[i], n);
  }
}

/** The de-duplication key of orchestrator/operator_summary_delivery.py. */
module WindowKeys {
  import opened Text
  import opened OperatorSchedules

  datatype Date = Date(year: nat, month: nat, day: nat) {
    predicate Valid() { 1 <= year <= 9999 && 1 <= month <= 12 && 1 <= day <= 31 }
  }

  /** ISO form, always ten characters. */
  function DateLabel(d: Date): (s: string)
    requires d.Valid()
    ensures |s| == 10
  {
    TwoDigits(d.year / 100) + TwoDigits(d.year % 100) + "-" + TwoDigits(d.month) + "-" + TwoDigits(d.day)
  }

  function WindowKey(id: string, d: Date, hour: nat, minute: nat): string
    requires d.Valid() && hour < 24 && minute < 60
  {
    Strip(id) + "|" + DateLabel(d) + "|" + Label(hour, minute)
  }

  lemma TwoDigitsDiffer(m: nat, n: nat)
    requires m < 100 && n < 100 && TwoDigits(m) == TwoDigits(n)
    ensures m == n
  {
    TwoDigitsRead(m);
    TwoDigitsRead(n);
  }

  lemma DateLabelInjective(a: Date, b: Date)
    requires a.Valid() && b.Valid() && DateLabel(a) == DateLabel(b)
    ensures a == b
  {
    var s, t := DateLabel(a), DateLabel(b);
    assert s[..2] == TwoDigits(a.year / 100) && t[..2] == TwoDigits(b.year / 100);
    assert s[2..4] == TwoDigits(a.year % 100) && t[2..4] == TwoDigits(b.year % 100);
    assert s[5..7] == TwoDigits(a.month) && t[5..7] == TwoDigits(b.month);
    assert s[8..] == TwoDigits(a.day) && t[8..] == TwoDigits(b.day);
    TwoDigitsDiffer(a.year / 100, b.year / 100);
    TwoDigitsDiffer(a.year % 100, b.year % 100);
    TwoDigitsDiffer(a.month, b.month);
    TwoDigitsDiffer(a.day, b.day);
  }

  lemma LabelInjective(h: nat, m: nat, h': nat, m': nat)
    requires h < 24 && m < 60 && h' < 24 && m' < 60 && Label(h, m) == Label(h', m')
    ensures h == h' && m == m'
  {
    var s, t := Label(h, m), Label(h', m');
    assert s[..2] == TwoDigits(h) && t[..2] == TwoDigits(h');
    assert s[3..] == TwoDigits(m) && t[3..] == TwoDigits(m');
    TwoDigitsDiffer(h, h');
    TwoDigitsDiffer(m, m');
  }

  /** Two windows share a key exactly when schedule id, date and minute agree, even if ids contain bars. */
  lemma WindowKeysDistinct(id: string, d: Date, h: nat, m: nat, id': string, d': Date, h': nat, m': nat)
    requires d.Valid() && d'.Valid() && h < 24 && m < 60 && h' < 24 && m' < 60
    ensures WindowKey(id, d, h, m) == WindowKey(id', d', h', m') <==> Strip(id) == Strip(id') && d == d' && h == h' && m == m'
  {
    var k, k' := WindowKey(id, d, h, m), WindowKey(id', d', h', m');
    var n, n' := |Strip(id)|, |Strip(id')|;
    if k == k' {
      assert |k| == n + 17 && |k'| == n' + 17;
      assert k[..n] == Strip(id) && k'[..n] == Strip(id');
      assert k[n + 1..n + 11] == DateLabel(d) && k'[n + 1..n + 11] == DateLabel(d');
      assert k[n + 12..] == Label(h, m) && k'[n + 12..] == Label(h', m');
      DateLabelInjective(d, d');
      LabelInjective(h, m, h', m');
    }
  }
}
