/** What the text helpers do, said of the characters. */
module TextAnswers {
  import opened Text
  import opened SortedTexts

  predicate AllSpace(s: string) { forall i :: 0 <= i < |s| ==> IsSpace(s[i]) }

  predicate Framed(s: string, before: string, inner: string, after: string) {
    AllSpace(before) && AllSpace(after) && s == before + inner + after
  }

  /** Stripping takes white space off both ends and nothing else; a text that is all white space becomes empty. */
  lemma StripIs(s: string, t: string)
    ensures Strip(s) == t <==> Stripped(t) && exists before, after :: Framed(s, before, t, after)
  {
    var before := LeftPart(s);
    var after := RightPart(StripLeft(s));
    StripIdempotent(s);
    assert s == before + (Strip(s) + after) == before + Strip(s) + after;
    assert Framed(s, before, Strip(s), after);
    if Stripped(t) && exists b, a :: Framed(s, b, t, a) {
      var b, a :| Framed(s, b, t, a);
      assert s == b + (t + a);
      LeftGone(b, t + a);
      if t != "" {
        assert StripLeft(t + a) == t + a;
        RightGone(t, a);
      } else {
        assert t + a == a;
        LeftGone(a, "");
        assert a + "" == a;
      }
    }
  }

  lemma {:induction false} LeftPart(s: string) returns (before: string)
    ensures AllSpace(before) && s == before + StripLeft(s)
  {
    if s != "" && IsSpace(s[0]) {
      before := LeftPart(s[1..]);
      before := [s[0]] + before;
    } else {
      before := "";
    }
  }

  lemma {:induction false} RightPart(s: string) returns (after: string)
    ensures AllSpace(after) && s == StripRight(s) + after
  {
    if s != "" && IsSpace(s[|s| - 1]) {
      after := RightPart(s[..|s| - 1]);
      after := after + [s[|s| - 1]];
    } else {
      after := "";
    }
  }

  lemma {:induction false} LeftGone(b: string, s: string)
    requires AllSpace(b)
    ensures StripLeft(b + s) == StripLeft(s)
  {
    if b == "" {
      assert b + s == s;
    } else {
      assert (b + s)[1..] == b[1..] + s;
      LeftGone(b[1..], s);
    }
  }

  lemma {:induction false} RightGone(s: string, a: string)
    requires AllSpace(a) && Stripped(s)
    ensures StripRight(s + a) == s
  {
    if a == "" {
      assert s + a == s;
    } else {
      assert (s + a)[..|s + a| - 1] == s + a[..|a| - 1];
      RightGone(s, a[..|a| - 1]);
    }
  }

  /** Lower case and slashes, character by character. */
  lemma CharactersAre(s: string, i: nat)
    requires i < |s|
    ensures Lower(s)[i] as int == s[i] as int + if 65 <= s[i] as int <= 90 then 32 else 0
    ensures Slashed(s)[i] == if s[i] as int == 92 then '/' else s[i]
  {
  }

  /** The order of texts: at the first place where they differ the lower character, or the end, comes first. */
  predicate DifferAt(a: string, b: string, k: nat) {
    k <= |a| && k < |b| && a[..k] == b[..k] && (k == |a| || a[k] < b[k])
  }

  lemma {:induction false} LessIff(a: string, b: string)
    ensures Less(a, b) <==> exists k :: DifferAt(a, b, k)
  {
    if b != "" && (a == "" || a[0] < b[0]) {
      assert DifferAt(a, b, 0);
    } else if a != "" && b != "" && a[0] == b[0] {
      LessIff(a[1..], b[1..]);
      if k :| DifferAt(a[1..], b[1..], k) { OneLater(a, b, k); }
      if k :| DifferAt(a, b, k) { OneEarlier(a, b, k); }
    }
  }

  lemma OneLater(a: string, b: string, k: nat)
    requires a != "" && b != "" && a[0] == b[0] && DifferAt(a[1..], b[1..], k)
    ensures DifferAt(a, b, k + 1)
  {
    assert a[..k + 1] == [a[0]] + a[1..][..k] && b[..k + 1] == [b[0]] + b[1..][..k];
  }

  lemma OneEarlier(a: string, b: string, k: nat)
    requires a != "" && b != "" && a[0] == b[0] && DifferAt(a, b, k)
    ensures k > 0 && DifferAt(a[1..], b[1..], k - 1)
  {
    assert a[1..][..k - 1] == a[..k][1..] && b[1..][..k - 1] == b[..k][1..];
  }
}
