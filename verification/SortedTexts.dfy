/** `sorted(set(texts))`: the texts without repeats, in code point order. */
module SortedTexts {
  predicate Less(a: string, b: string) {
    b != "" && (a == "" || a[0] < b[0] || (a[0] == b[0] && Less(a[1..], b[1..])))
  }

  lemma {:induction false} LessIsStrict(a: string)
    ensures !Less(a, a)
  {
    if a != "" { LessIsStrict(a[1..]); }
  }

  lemma {:induction false} LessIsTransitive(a: string, b: string, c: string)
    requires Less(a, b) && Less(b, c)
    ensures Less(a, c)
  {
    if a != "" && a[0] == b[0] && b[0] == c[0] { LessIsTransitive(a[1..], b[1..], c[1..]); }
  }

  lemma {:induction false} LessIsTotal(a: string, b: string)
    ensures a == b || Less(a, b) || Less(b, a)
  {
    if a != "" && b != "" && a[0] == b[0] {
      LessIsTotal(a[1..], b[1..]);
      assert a == [a[0]] + a[1..] && b == [b[0]] + b[1..];
    }
  }

  predicate Ascending(s: seq<string>) { forall i, j :: 0 <= i < j < |s| ==> Less(s[i], s[j]) }

  function Insert(x: string, s: seq<string>): seq<string> {
    if s == [] || Less(x, s[0]) then [x] + s
    else if x == s[0] then s
    else [s[0]] + Insert(x, s[1..])
  }

  function SortedSet(s: seq<string>): seq<string> {
    if s == [] then [] else Insert(s[|s| - 1], SortedSet(s[..|s| - 1]))
  }

  lemma {:induction false} InsertAscends(x: string, s: seq<string>)
    requires Ascending(s)
    ensures Ascending(Insert(x, s))
    ensures forall y :: y in Insert(x, s) <==> y == x || y in s
  {
    if s == [] {
    } else if Less(x, s[0]) {
      var r := [x] + s;
      forall i, j | 0 <= i < j < |r| ensures Less(r[i], r[j]) {
        if i == 0 && j > 1 { LessIsTransitive(x, s[0], s[j - 1]); }
      }
    } else if x != s[0] {
      InsertAscends(x, s[1..]);
      LessIsTotal(x, s[0]);
      var t := Insert(x, s[1..]);
      assert s == [s[0]] + s[1..];
      forall j | 0 <= j < |t| ensures Less(s[0], t[j]) {
        assert t[j] in t;
        if t[j] != x {
          var k :| 0 <= k < |s| - 1 && s[1..][k] == t[j];
          assert s[k + 1] == t[j];
        }
      }
    }
  }

  /** What `sorted(set(...))` is: ascending, with exactly the given elements. */
  lemma {:induction false} SortedSetMeaning(s: seq<string>)
    ensures Ascending(SortedSet(s))
    ensures forall y :: y in SortedSet(s) <==> y in s
  {
    if s != [] {
      var front := s[..|s| - 1];
      SortedSetMeaning(front);
      InsertAscends(s[|s| - 1], SortedSet(front));
      assert s == front + [s[|s| - 1]];
    }
  }

  /** An ascending list is no longer than another that holds all its elements ... */
  lemma {:induction false} FewerElements(a: seq<string>, b: seq<string>)
    requires Ascending(a) && Ascending(b)
    requires forall x :: x in a ==> x in b
    ensures |a| <= |b|
  {
    if a != [] {
      var x := a[|a| - 1];
      assert x in a;
      var k :| 0 <= k < |b| && b[k] == x;
      var front := a[..|a| - 1];
      forall y | y in front ensures y in b[..k] {
        var i :| 0 <= i < |front| && front[i] == y;
        assert Less(a[i], x);
        assert y in a;
        var m :| 0 <= m < |b| && b[m] == y;
        if m == k { LessIsStrict(x); }
        if m > k { LessIsTransitive(b[m], x, b[m]); LessIsStrict(b[m]); }
        assert b[..k][m] == y;
      }
      FewerElements(front, b[..k]);
    }
  }

  /** ... and an ascending list is determined by its set of elements. */
  lemma {:induction false} AscendingIsUnique(a: seq<string>, b: seq<string>)
    requires Ascending(a) && Ascending(b)
    requires forall x :: x in a <==> x in b
    ensures a == b
  {
    FewerElements(a, b);
    FewerElements(b, a);
    if a != [] {
      assert a[0] in b && b[0] in a;
      LowestFirst(a, b);
      LowestFirst(b, a);
      if a[0] != b[0] { LessIsTransitive(a[0], b[0], a[0]); LessIsStrict(a[0]); }
      forall x ensures x in a[1..] <==> x in b[1..] {
        TailElements(a, x);
        TailElements(b, x);
      }
      AscendingIsUnique(a[1..], b[1..]);
      assert a == [a[0]] + a[1..] && b == [b[0]] + b[1..];
    }
  }

  lemma LowestFirst(a: seq<string>, b: seq<string>)
    requires Ascending(b) && a != [] && a[0] in b
    ensures a[0] == b[0] || Less(b[0], a[0])
  {
  }

  lemma TailElements(a: seq<string>, x: string)
    requires Ascending(a) && a != []
    ensures x in a[1..] <==> x in a && x != a[0]
  {
    LessIsStrict(a[0]);
    if x in a[1..] {
      var i :| 0 <= i < |a| - 1 && a[1..][i] == x;
      assert Less(a[0], a[i + 1]);
    }
  }
}
