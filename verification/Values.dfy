/** Values read from YAML or JSON, with the Python readings of them the source uses. */
module Values {
  import opened Text

  /** `shown` is what `str` prints; `Other` is any value not told apart here: floats, dates, mappings. */
  datatype Value =
    | Null
    | Flag(on: bool)
    | Number(n: int)
    | Words(text: string)
    | List(items: seq<Value>, shown: string)
    | Tuple(items: seq<Value>, shown: string)
    | Other(shown: string, truthy: bool)

  function Str(v: Value): string {
    match v
    case Null => "None"
    case Flag(on) => if on then "True" else "False"
    case Number(n) => if n < 0 then "-" + Decimal(-n) else Decimal(n)
    case Words(text) => text
    case List(_, shown) => shown
    case Tuple(_, shown) => shown
    case Other(shown, _) => shown
  }

  /** `bool(v)` */
  predicate Truthy(v: Value) {
    match v
    case Null => false
    case Flag(on) => on
    case Number(n) => n != 0
    case Words(text) => text != ""
    case List(items, _) => items != []
    case Tuple(items, _) => items != []
    case Other(_, truthy) => truthy
  }

  /** The stripped texts of the items, blank ones dropped. */
  function Texts(items: seq<Value>): seq<string> {
    if items == [] then []
    else
      var text := Strip(Str(items[|items| - 1]));
      Texts(items[..|items| - 1]) + if text == "" then [] else [text]
  }

  predicate Clean(text: string) { text != "" && Stripped(text) }

  predicate AllClean(texts: seq<string>) { forall i :: 0 <= i < |texts| ==> Clean(texts[i]) }

  lemma {:induction false} TextsAreClean(items: seq<Value>)
    ensures AllClean(Texts(items))
  {
    if items != [] {
      TextsAreClean(items[..|items| - 1]);
      StripIdempotent(Str(items[|items| - 1]));
    }
  }

  /** A tuple of texts, as a value. */
  function Quoted(texts: seq<string>): Value {
    Tuple(seq(|texts|, i requires 0 <= i < |texts| => Words(texts[i])), "")
  }

  lemma {:induction false} CleanTextsReadBack(texts: seq<string>)
    requires AllClean(texts)
    ensures Texts(Quoted(texts).items) == texts
  {
    if texts != [] {
      var front := texts[..|texts| - 1];
      CleanTextsReadBack(front);
      assert Quoted(texts).items[..|texts| - 1] == Quoted(front).items;
      StripIdempotent(texts[|texts| - 1]);
    }
  }

  /** `text and text.isdigit()`, then `int(text)`, of a stripped text. */
  predicate IsCount(text: string) { AllDigits(Strip(text)) }

  function CountOf(text: string): nat
    requires IsCount(text)
  {
    Text.Value(Strip(text))
  }

  /** `Raises`: a text such as "--5" passes the digit test and then fails to convert. */
  datatype IntReading = NoInt | AnInt(n: int) | Raises

  function DropDashes(s: string): string { if s != "" && s[0] == '-' then DropDashes(s[1..]) else s }

  /** A stripped text whose dashes in front are dropped before the digit test, but not before `int`. */
  function IntOf(s: string): IntReading {
    if !AllDigits(DropDashes(s)) then NoInt
    else if AllDigits(s) then AnInt(Text.Value(s))
    else if AllDigits(s[1..]) then AnInt(0 - Text.Value(s[1..]))
    else Raises
  }

  /** Two dashes or more in front of digits. */
  predicate DoubleDashed(s: string) {
    |s| >= 2 && s[0] == '-' && s[1] == '-' && AllDigits(DropDashes(s))
  }

  lemma {:induction false} DropDashesStops(s: string)
    ensures DropDashes(s) == "" || DropDashes(s)[0] != '-'
    ensures s == "" || s[0] != '-' ==> DropDashes(s) == s
  {
    if s != "" && s[0] == '-' { DropDashesStops(s[1..]); }
  }

  /** The digit test lets exactly these texts through to a failing conversion. */
  lemma RaisesIff(s: string)
    ensures IntOf(s).Raises? <==> DoubleDashed(s)
  {
    if s != "" && s[0] == '-' {
      DropDashesStops(s[1..]);
      assert DropDashes(s) == DropDashes(s[1..]);
      if |s| >= 2 && s[1] == '-' {
        assert !IsDigit(s[0]) && !IsDigit(s[1..][0]);
      }
    } else {
      DropDashesStops(s);
    }
  }

  lemma DoubleDashRaises()
    ensures IntOf("--5").Raises?
  {
    assert "--5"[1..] == "-5" && "-5"[1..] == "5";
    assert DropDashes("--5") == DropDashes("-5") == DropDashes("5") == "5";
    RaisesIff("--5");
  }
}
