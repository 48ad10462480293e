/** Which configured times a schedule accepts, and what it makes of them. */
module ScheduleAnswers {
  import opened Options
  import opened Text
  import opened Values
  import opened OperatorSchedules

  /** The value denotes some minute of the day. */
  ghost predicate IsTime(v: Value) { exists n :: Denotes(v, n) }

  ghost predicate AllTimes(items: seq<Value>) { forall i :: 0 <= i < |items| ==> IsTime(items[i]) }

  lemma ReadIff(v: Value)
    ensures ParseDailyTime(v).Loaded? <==> IsTime(v)
  {
    if ParseDailyTime(v).Loaded? { ParseIff(v, ParseDailyTime(v).value.minute); }
    if IsTime(v) {
      var n :| Denotes(v, n);
      ParseIff(v, n);
    }
  }

  lemma AllReadIff(items: seq<Value>)
    ensures AllRead(Readings(items)) <==> AllTimes(items)
  {
    forall i | 0 <= i < |items| ensures Readings(items)[i].Loaded? <==> IsTime(items[i]) { ReadIff(items[i]); }
  }

  /** The loader takes exactly a list that is not empty and holds nothing but times. */
  lemma LoadedIff(times: Option<Value>)
    ensures LoadTrigger(times).Loaded? <==>
            times.Some? && times.value.List? && times.value.items != [] && AllTimes(times.value.items)
  {
    if times.Some? && times.value.List? {
      AllReadIff(times.value.items);
      if AllTimes(times.value.items) { ReadingsSettle(times.value.items); }
    }
  }

  /** The run-time path raises exactly on a list or tuple with something else in it, and leaves other triggers alone. */
  lemma RuntimeIs(times: Option<Value>)
    ensures var listed := times.Some? && (times.value.List? || times.value.Tuple?);
      && (RuntimeTrigger(times) == Loaded(None) <==> !listed)
      && (RuntimeTrigger(times).Refused? <==> listed && !AllTimes(times.value.items))
  {
    if times.Some? && (times.value.List? || times.value.Tuple?) {
      AllReadIff(times.value.items);
      if AllTimes(times.value.items) { ReadingsSettle(times.value.items); }
    }
  }

  /** The label of a time shows hour and minute in two digits each; the minute counts from midnight. */
  lemma TimeIs(hours: string, minutes: string)
    requires ReadTime(hours, minutes).Loaded?
    ensures var t := ReadTime(hours, minutes).value;
      && |t.text| == 5 && t.text[2] == ':' && t.minute == 60 * Text.Value(t.text[..2]) + Text.Value(t.text[3..])
      && Text.Value(t.text[..2]) == Text.Value(hours) && Text.Value(t.text[3..]) == Text.Value(minutes)
  {
    var t := ReadTime(hours, minutes).value;
    var h, m := Text.Value(hours), Text.Value(minutes);
    assert t.text[..2] == TwoDigits(h) && t.text[3..] == TwoDigits(m);
    TwoDigitsRead(h);
    TwoDigitsRead(m);
  }
}
