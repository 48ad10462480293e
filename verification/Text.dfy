/** Python text helpers: strip, decimal printing and reading, newline joins. */
module Text {
  /** The characters `str.strip` removes. */
  predicate IsSpace(c: char) {
    var n := c as int;
    || 9 <= n <= 13 || 28 <= n <= 32 || n == 0x85 || n == 0xA0 || n == 0x1680 || 0x2000 <= n <= 0x200A
    || n == 0x2028 || n == 0x2029 || n == 0x202F || n == 0x205F || n == 0x3000
  }

  function StripLeft(s: string): string {
    if s != "" && IsSpace(s[0]) then StripLeft(s[1..]) else s
  }

  function StripRight(s: string): string {
    if s != "" && IsSpace(s[|s| - 1]) then StripRight(s[..|s| - 1]) else s
  }

  function Strip(s: string): string { StripRight(StripLeft(s)) }

  predicate Stripped(s: string) {
    s == "" || (!IsSpace(s[0]) && !IsSpace(s[|s| - 1]))
  }

  lemma {:induction false} StripRightKeepsFront(s: string)
    requires s == "" || !IsSpace(s[0])
    ensures Stripped(StripRight(s))
    ensures StripRight(s) == s <==> Stripped(s)
  {
    if s != "" && IsSpace(s[|s| - 1]) {
      StripRightKeepsFront(s[..|s| - 1]);
      ShrinkRight(s[..|s| - 1]);
    }
  }

  lemma {:induction false} ShrinkRight(s: string)
    ensures |StripRight(s)| <= |s|
  {
    if s != "" && IsSpace(s[|s| - 1]) { ShrinkRight(s[..|s| - 1]); }
  }

  lemma {:induction false} StripLeftFront(s: string)
    ensures StripLeft(s) == "" || !IsSpace(StripLeft(s)[0])
    ensures |StripLeft(s)| <= |s|
    ensures Stripped(s) ==> StripLeft(s) == s
  {
    if s != "" && IsSpace(s[0]) { StripLeftFront(s[1..]); }
  }

  /** Stripping leaves exactly the already stripped texts alone, so it is idempotent. */
  lemma StripIdempotent(s: string)
    ensures Stripped(Strip(s)) && Strip(Strip(s)) == Strip(s)
    ensures Strip(s) == s <==> Stripped(s)
  {
    StripLeftFront(s);
    StripRightKeepsFront(StripLeft(s));
    StripLeftFront(Strip(s));
    StripRightKeepsFront(StripLeft(Strip(s)));
  }

  /** `replace("\\", "/")` */
  function Slashed(s: string): (r: string)
    ensures |r| == |s|
  {
    seq(|s|, i requires 0 <= i < |s| => if s[i] == '\\' then '/' else s[i])
  }

  // ---- lower case (ASCII letters) ----

  function LowerChar(c: char): char { if 'A' <= c <= 'Z' then c + 32 as char else c }

  function Lower(s: string): (r: string)
    ensures |r| == |s|
  {
    seq(|s|, i requires 0 <= i < |s| => LowerChar(s[i]))
  }

  /** Lowering settles at once and neither makes nor removes white space. */
  lemma LowerSettles(s: string)
    ensures Lower(Lower(s)) == Lower(s)
    ensures Stripped(Lower(s)) <==> Stripped(s)
  {
    forall i | 0 <= i < |s| ensures Lower(Lower(s))[i] == Lower(s)[i] && (IsSpace(Lower(s)[i]) <==> IsSpace(s[i])) {}
  }

  // ---- decimals ----

  predicate IsDigit(c: char) { '0' <= c <= '9' }

  predicate AllDigits(s: string) { s != "" && forall i :: 0 <= i < |s| ==> IsDigit(s[i]) }

  function Digit(n: nat): char
    requires n < 10
  {
    '0' + n as char
  }

  function Decimal(n: nat): string {
    if n < 10 then [Digit(n)] else Decimal(n / 10) + [Digit(n % 10)]
  }

  /** `int` of a digit text. */
  function Value(s: string): nat
    requires forall i :: 0 <= i < |s| ==> IsDigit(s[i])
  {
    if s == "" then 0
    else
      assert IsDigit(s[|s| - 1]);
      10 * Value(s[..|s| - 1]) + (s[|s| - 1] as int - '0' as int)
  }

  lemma {:induction false} DecimalReadsBack(n: nat)
    ensures AllDigits(Decimal(n)) && Value(Decimal(n)) == n
  {
    if n < 10 {
      assert Decimal(n)[..0] == "";
    } else {
      DecimalReadsBack(n / 10);
      var s := Decimal(n);
      assert s[..|s| - 1] == Decimal(n / 10);
    }
  }

  lemma DecimalInjective(m: nat, n: nat)
    requires Decimal(m) == Decimal(n)
    ensures m == n
  {
    DecimalReadsBack(m);
    DecimalReadsBack(n);
  }

  // ---- joins ----

  predicate OneLine(s: string) { '\n' !in s }

  /** `"\n".join(fields)` */
  function JoinLines(fields: seq<string>): string
    requires fields != []
  {
    if |fields| == 1 then fields[0] else fields[0] + "\n" + JoinLines(fields[1..])
  }

  lemma FirstLineUnique(a: string, x: string, b: string, y: string)
    requires OneLine(a) && OneLine(b) && a + "\n" + x == b + "\n" + y
    ensures a == b && x == y
  {
    var s := a + "\n" + x;
    assert s[|a|] == '\n' && s[|b|] == '\n';
    assert s[..|a|] == a && s[..|b|] == b;
    assert s[|a| + 1..] == x && s[|b| + 1..] == y;
  }

  /** Equally many fields, every field but the last on one line: the join determines them all. */
  lemma {:induction false} JoinInjective(f: seq<string>, g: seq<string>)
    requires f != [] && |f| == |g|
    requires forall i :: 0 <= i < |f| - 1 ==> OneLine(f[i]) && OneLine(g[i])
    requires JoinLines(f) == JoinLines(g)
    ensures f == g
  {
    if |f| > 1 {
      FirstLineUnique(f[0], JoinLines(f[1..]), g[0], JoinLines(g[1..]));
      JoinInjective(f[1..], g[1..]);
      assert f == [f[0]] + f[1..] && g == [g[0]] + g[1..];
    }
  }
}
