/** `_normalize_paths` of orchestrator/merge_gate.py: re-spelled, without repeats, sorted. */
module ChangedPaths {
  import opened Text
  import opened SortedTexts

  predicate DotSlash(s: string) { |s| >= 2 && s[..2] == "./" }

  /** Stripped, backslashes turned, one leading "./" dropped. */
  function Normal(raw: string): string {
    var path := Slashed(Strip(raw));
    if DotSlash(path) then path[2..] else path
  }

  function Listed(raws: seq<string>): seq<string> {
    if raws == [] then []
    else
      var path := Normal(raws[|raws| - 1]);
      Listed(raws[..|raws| - 1]) + if path == "" then [] else [path]
  }

  function NormalizePaths(raws: seq<string>): seq<string> { SortedSet(Listed(raws)) }

  method CollectPaths(raws: seq<string>) returns (paths: seq<string>)
    ensures paths == NormalizePaths(raws)
  {
    var normalized := [];
    for i := 0 to |raws|
      invariant normalized == Listed(raws[..i])
    {
      assert raws[..i + 1][..i] == raws[..i];
      var path := Slashed(Strip(raws[i]));
      if |path| >= 2 && path[..2] == "./" { path := path[2..]; }
      if path != "" { normalized := normalized + [path]; }
    }
    assert raws[..|raws|] == raws;
    return SortedSet(normalized);
  }

  /** Some entry is spelled so that it normalises to this path. */
  predicate Spelled(path: string, raws: seq<string>) {
    path != "" && exists i :: 0 <= i < |raws| && Normal(raws[i]) == path
  }

  lemma {:induction false} ListedMeaning(raws: seq<string>, path: string)
    ensures path in Listed(raws) <==> Spelled(path, raws)
  {
    if raws != [] {
      var front := raws[..|raws| - 1];
      ListedMeaning(front, path);
      if Spelled(path, raws) {
        var i :| 0 <= i < |raws| && Normal(raws[i]) == path;
        if i < |front| { assert Normal(front[i]) == path; }
      }
      if Spelled(path, front) {
        var i :| 0 <= i < |front| && Normal(front[i]) == path;
        assert Normal(raws[i]) == path;
      }
    }
  }

  /** The result is the ascending list of exactly the paths spelled in the input. */
  lemma PathsMeaning(raws: seq<string>)
    ensures Ascending(NormalizePaths(raws))
    ensures forall path :: path in NormalizePaths(raws) <==> Spelled(path, raws)
  {
    SortedSetMeaning(Listed(raws));
    forall path ensures path in NormalizePaths(raws) <==> Spelled(path, raws) { ListedMeaning(raws, path); }
  }

  /** Reordering, repeating or re-spelling paths changes nothing. */
  lemma SamePathsSameList(a: seq<string>, b: seq<string>)
    requires forall path :: Spelled(path, a) <==> Spelled(path, b)
    ensures NormalizePaths(a) == NormalizePaths(b)
  {
    PathsMeaning(a);
    PathsMeaning(b);
    AscendingIsUnique(NormalizePaths(a), NormalizePaths(b));
  }

  lemma SlashedSettles(s: string)
    ensures Slashed(Slashed(s)) == Slashed(s)
  {
  }

  lemma NormalIsSlashed(raw: string)
    ensures Slashed(Normal(raw)) == Normal(raw)
  {
    var path := Slashed(Strip(raw));
    SlashedSettles(Strip(raw));
    assert forall i :: 0 <= i < |path| ==> path[i] != '\\';
  }

  /** Normalising again changes nothing exactly when no second dot-slash and no white space came to the front. */
  lemma NormalSettlesIff(raw: string)
    ensures Normal(Normal(raw)) == Normal(raw) <==> Stripped(Normal(raw)) && !DotSlash(Normal(raw))
  {
    var path := Normal(raw);
    NormalIsSlashed(raw);
    StripIdempotent(path);
    StripShrinks(path);
    if Strip(path) != path { assert |Normal(path)| < |path|; }
  }

  lemma StripShrinks(s: string)
    ensures |Strip(s)| <= |s| && (|Strip(s)| == |s| ==> Strip(s) == s)
  {
    StripShorter(s);
    RightShorter(StripLeft(s));
  }

  lemma {:induction false} StripShorter(s: string)
    ensures |StripLeft(s)| <= |s| && (|StripLeft(s)| == |s| ==> StripLeft(s) == s)
  {
    if s != "" && IsSpace(s[0]) { StripShorter(s[1..]); }
  }

  lemma {:induction false} RightShorter(s: string)
    ensures |StripRight(s)| <= |s| && (|StripRight(s)| == |s| ==> StripRight(s) == s)
  {
    if s != "" && IsSpace(s[|s| - 1]) { RightShorter(s[..|s| - 1]); }
  }

  /** Both causes occur: a second dot-slash, and white space behind the first. */
  lemma NormalNeedNotSettle()
    ensures Normal("././a") == "./a" && Normal("./a") == "a"
    ensures Normal("./ a") == " a" && Normal(" a") == "a"
  {
    StripIdempotent("././a");
    StripIdempotent("./a");
    StripIdempotent("./ a");
    StripIdempotent("a");
    assert Strip(" a") == Strip("a") by { assert " a"[1..] == "a"; }
    assert Slashed("././a") == "././a" && Slashed("./a") == "./a" && Slashed("./ a") == "./ a" && Slashed("a") == "a";
  }
}
