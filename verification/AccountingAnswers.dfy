/** What is read from a line of git's numstat, character by character. */
module AccountingAnswers {
  import opened Options
  import opened Text
  import opened Values
  import opened Accounting

  // ---- lists ----

  /** A further item is listed exactly when its text is not blank and none before it has that text. */
  lemma SeenGrows(items: seq<Value>, v: Value)
    ensures FirstSeen([]) == []
    ensures FirstSeen(items + [v]) == FirstSeen(items) + if TextOf(v) == "" || Mentioned(TextOf(v), items) then [] else [TextOf(v)]
  {
    assert (items + [v])[..|items|] == items;
    FirstSeenMeaning(items);
  }

  // ---- fields ----

  predicate NoTab(s: string) { forall i :: 0 <= i < |s| ==> s[i] != '\t' }

  lemma FieldsJoin(raw: string, a: string, b: string, c: string)
    requires Fields(raw) == Some((a, b, c))
    ensures NoTab(a) && NoTab(b) && raw == a + "\t" + (b + "\t" + c)
  {
    var j := Tab(raw);
    var rest := raw[j + 1..];
    var k := Tab(rest);
    assert raw == raw[..j] + "\t" + rest;
    assert rest == rest[..k] + "\t" + rest[k + 1..];
  }

  /** A line has three fields exactly when it has two tabs: the first two separate, the third field is all the rest. */
  lemma FieldsIff(raw: string, a: string, b: string, c: string)
    ensures Fields(raw) == Some((a, b, c)) <==> NoTab(a) && NoTab(b) && raw == a + "\t" + (b + "\t" + c)
  {
    if Fields(raw) == Some((a, b, c)) { FieldsJoin(raw, a, b, c); }
    if NoTab(a) && NoTab(b) && raw == a + "\t" + (b + "\t" + c) { FieldsReadBack(a, b, c); }
  }

  lemma NoFieldsIff(raw: string)
    ensures Fields(raw).None? <==> !exists i, j :: 0 <= i < j < |raw| && raw[i] == '\t' && raw[j] == '\t'
  {
    var i := Tab(raw);
    if i < |raw| {
      var rest := raw[i + 1..];
      var k := Tab(rest);
      if k < |rest| { assert raw[i] == '\t' && raw[i + 1 + k] == '\t'; }
      if k == |rest| { assert forall j :: i < j < |raw| ==> raw[j] == rest[j - i - 1] != '\t'; }
    }
  }

  /** White space at the end of a line does not matter. */
  lemma EndOfLine(line: string, resolve: Resolver)
    ensures ReadLine(StripRight(line), resolve) == ReadLine(line, resolve)
  {
    StripRightSettles(line);
  }

  lemma {:induction false} StripRightSettles(s: string)
    ensures StripRight(StripRight(s)) == StripRight(s)
  {
    if s != "" && IsSpace(s[|s| - 1]) { StripRightSettles(s[..|s| - 1]); }
  }

  // ---- counts ----

  /** A count is what its digits say; a dash on either side marks a binary file, which counts nothing there. */
  lemma EntryIs(added: string, deleted: string, path: string, resolve: Resolver)
    ensures var e := EntryOf(added, deleted, path, resolve);
      && e.additions == (if AllDigits(added) then Text.Value(added) else 0)
      && e.deletions == (if AllDigits(deleted) then Text.Value(deleted) else 0)
      && (e.binary <==> added == "-" || deleted == "-") && (added == "-" ==> e.additions == 0) && (deleted == "-" ==> e.deletions == 0)
      && e.rawPath == Slashed(Strip(path))
      && e.path == if RelativePath(path, resolve) == "" then e.rawPath else RelativePath(path, resolve)
  {
  }

  // ---- paths ----

  /** What is dropped in front is all the dots and slashes there. */
  lemma {:induction false} DropFrontIs(s: string)
    ensures |DropFront(s)| <= |s| && DropFront(s) == s[|s| - |DropFront(s)|..]
    ensures forall i :: 0 <= i < |s| - |DropFront(s)| ==> s[i] == '.' || s[i] == '/'
    ensures DropFront(s) == "" || (DropFront(s)[0] != '.' && DropFront(s)[0] != '/')
  {
    if s != "" && (s[0] == '.' || s[0] == '/') {
      DropFrontIs(s[1..]);
      assert forall i :: 0 < i < |s| ==> s[i] == s[1..][i - 1];
    }
  }

  /** An absolute path is taken as it lies below the repository, or not at all. */
  lemma AbsolutePathIs(path: string, resolve: Resolver)
    requires Clean(path) && '\\' !in path && path[0] == '/'
    ensures RelativePath(path, resolve) ==
      match resolve(path)
      case None => ""
      case Some(local) => if |local| >= 5 && local[..5] == "/tmp/" then "" else DropFront(local)
  {
    StripIdempotent(path);
    assert Slashed(path) == path && |"/tmp/"| == 5;
  }

  /** A quoted path is the path in the quotes. */
  lemma QuotedPathIs(path: string, resolve: Resolver)
    requires Clean(path) && '\\' !in path && !InQuotes(path)
    ensures RelativePath("\"" + path + "\"", resolve) == RelativePath(path, resolve)
  {
    var quoted := "\"" + path + "\"";
    StripIdempotent(path);
    StripIdempotent(quoted);
    assert Slashed(path) == path && Slashed(quoted) == quoted;
    assert quoted[1..|quoted| - 1] == path;
  }

  /** Backslashes are slashes, and white space around does not count. */
  lemma SpellingIs(path: string, resolve: Resolver)
    ensures RelativePath(Slashed(Strip(path)), resolve) == RelativePath(path, resolve)
  {
    var s := Slashed(Strip(path));
    StripIdempotent(path);
    assert Stripped(s) by {
      assert forall i :: 0 <= i < |s| ==> (IsSpace(s[i]) <==> IsSpace(Strip(path)[i]));
    }
    StripIdempotent(s);
    assert Slashed(s) == s;
  }
}
