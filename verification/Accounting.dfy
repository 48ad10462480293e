/** Change accounting of scripts/run_planned_execution.py: reported changes, corrected from git. */
module Accounting {
  import opened Options
  import opened Text
  import opened Values
  import opened SortedTexts

  // ---- lists of texts ----

  function TextOf(v: Value): string { if v == Null then "" else Strip(Str(v)) }

  function ItemsOf(v: Value): seq<Value> {
    match v
    case List(items, _) => items
    case Tuple(items, _) => items
    case _ => []
  }

  /** The texts that are not blank, each at its first place. */
  function FirstSeen(items: seq<Value>): seq<string> {
    if items == [] then []
    else
      var before := FirstSeen(items[..|items| - 1]);
      var text := TextOf(items[|items| - 1]);
      if text == "" || text in before then before else before + [text]
  }

  method NormalizeStringList(v: Value, sortItems: bool) returns (r: seq<string>)
    ensures r == if sortItems then SortedSet(FirstSeen(ItemsOf(v))) else FirstSeen(ItemsOf(v))
  {
    var given := ItemsOf(v);
    var items: seq<string>, seen: set<string> := [], {};
    for i := 0 to |given|
      invariant items == FirstSeen(given[..i]) && forall t :: t in seen <==> t in items
    {
      assert given[..i + 1][..i] == given[..i];
      var text := TextOf(given[i]);
      if text == "" || text in seen { continue; }
      seen := seen + {text};
      items := items + [text];
    }
    assert given[..|given|] == given;
    return if sortItems then SortedSet(items) else items;
  }

  predicate Mentioned(text: string, items: seq<Value>) { exists i :: 0 <= i < |items| && TextOf(items[i]) == text }

  predicate Distinct(texts: seq<string>) { forall i, j :: 0 <= i < j < |texts| ==> texts[i] != texts[j] }

  lemma MentionedSplit(text: string, front: seq<Value>, last: Value)
    ensures Mentioned(text, front + [last]) <==> Mentioned(text, front) || TextOf(last) == text
  {
    var items := front + [last];
    if i :| 0 <= i < |front| && TextOf(front[i]) == text { assert TextOf(items[i]) == text; }
    if TextOf(last) == text { assert TextOf(items[|front|]) == text; }
  }

  /** No repeats, nothing blank, nothing lost. */
  lemma {:induction false} FirstSeenMeaning(items: seq<Value>)
    ensures Distinct(FirstSeen(items)) && AllClean(FirstSeen(items))
    ensures forall text :: text in FirstSeen(items) <==> text != "" && Mentioned(text, items)
  {
    if items != [] {
      var front, last := items[..|items| - 1], items[|items| - 1];
      FirstSeenMeaning(front);
      StripIdempotent(Str(last));
      assert items == front + [last];
      forall text ensures Mentioned(text, items) <==> Mentioned(text, front) || TextOf(last) == text {
        MentionedSplit(text, front, last);
      }
      SeenGrows(FirstSeen(front), TextOf(last));
    }
  }

  lemma SeenGrows(before: seq<string>, text: string)
    requires Distinct(before) && AllClean(before) && (text != "" ==> Clean(text))
    ensures var r := if text == "" || text in before then before else before + [text];
            Distinct(r) && AllClean(r) && forall t :: t in r <==> t in before || (t == text && t != "")
  {
  }

  function TextList(texts: seq<string>): Value { List(Quoted(texts).items, "") }

  lemma {:induction false} DistinctReadsBack(texts: seq<string>)
    requires Distinct(texts) && AllClean(texts)
    ensures FirstSeen(TextList(texts).items) == texts
  {
    if texts != [] {
      var front, last := texts[..|texts| - 1], texts[|texts| - 1];
      DistinctReadsBack(front);
      assert TextList(texts).items[..|texts| - 1] == TextList(front).items;
      assert Clean(last) && texts == front + [last];
      StripIdempotent(last);
    }
  }

  function SortedFiles(v: Value): seq<string> { SortedSet(FirstSeen(ItemsOf(v))) }

  /** Normalising is idempotent, in both orders. */
  lemma ListsSettle(v: Value)
    ensures FirstSeen(TextList(FirstSeen(ItemsOf(v))).items) == FirstSeen(ItemsOf(v))
    ensures SortedFiles(TextList(SortedFiles(v))) == SortedFiles(v)
  {
    var seen, files := FirstSeen(ItemsOf(v)), SortedFiles(v);
    FirstSeenMeaning(ItemsOf(v));
    DistinctReadsBack(seen);
    SortedSetMeaning(seen);
    assert AllClean(files) by {
      forall i | 0 <= i < |files| ensures Clean(files[i]) {
        assert files[i] in seen;
        var k :| 0 <= k < |seen| && seen[k] == files[i];
      }
    }
    assert Distinct(files) by {
      forall i, j | 0 <= i < j < |files| ensures files[i] != files[j] { LessIsStrict(files[i]); }
    }
    DistinctReadsBack(files);
    SortedSetMeaning(files);
    AscendingIsUnique(SortedSet(files), files);
  }

  // ---- git diff --numstat ----

  datatype NumstatEntry = NumstatEntry(path: string, rawPath: string, additions: nat, deletions: nat, binary: bool)

  /** Where an absolute path lies below the repository root, as the file system resolves it; None outside. */
  type Resolver = string -> Option<string>

  /** `lstrip("./")`: all dots and slashes in front. */
  function DropFront(s: string): string { if s != "" && (s[0] == '.' || s[0] == '/') then DropFront(s[1..]) else s }

  predicate InQuotes(s: string) { |s| >= 2 && s[0] == '"' && s[|s| - 1] == '"' }

  function RelativePath(text: string, resolve: Resolver): string {
    var slashed := Slashed(Strip(text));
    var path := if InQuotes(slashed) then Strip(slashed[1..|slashed| - 1]) else slashed;
    if path == "" then ""
    else
      var local := if path[0] == '/' then resolve(path) else Some(path);
      if local.None? || "/tmp/" <= local.value then "" else DropFront(local.value)
  }

  function Tab(s: string): (k: nat)
    ensures k <= |s| && (k < |s| ==> s[k] == '\t') && forall i :: 0 <= i < k ==> s[i] != '\t'
  {
    if s == "" || s[0] == '\t' then 0 else Tab(s[1..]) + 1
  }

  function Lines(s: string): nat { if AllDigits(s) then Text.Value(s) else 0 }

  function EntryOf(added: string, deleted: string, path: string, resolve: Resolver): NumstatEntry {
    var raw, local := Slashed(Strip(path)), RelativePath(path, resolve);
    NumstatEntry(if local == "" then raw else local, raw, Lines(added), Lines(deleted), added == "-" || deleted == "-")
  }

  /** The three fields made by the first two tabs; None for any other line. */
  function Fields(raw: string): Option<(string, string, string)> {
    var j := Tab(raw);
    if j == |raw| then None
    else
      var rest := raw[j + 1..];
      var k := Tab(rest);
      if k == |rest| then None else Some((raw[..j], rest[..k], rest[k + 1..]))
  }

  function ReadLine(line: string, resolve: Resolver): Option<NumstatEntry> {
    var f := Fields(StripRight(line));
    if f.None? then None else Some(EntryOf(f.value.0, f.value.1, f.value.2, resolve))
  }

  function Entries(lines: seq<string>, resolve: Resolver): seq<NumstatEntry> {
    if lines == [] then []
    else
      var e := ReadLine(lines[|lines| - 1], resolve);
      Entries(lines[..|lines| - 1], resolve) + if e.Some? then [e.value] else []
  }

  function Added(es: seq<NumstatEntry>): nat { if es == [] then 0 else Added(es[..|es| - 1]) + es[|es| - 1].additions }

  function Deleted(es: seq<NumstatEntry>): nat { if es == [] then 0 else Deleted(es[..|es| - 1]) + es[|es| - 1].deletions }

  /** The totals are the sums over the entries returned beside them. */
  method ParseNumstat(lines: seq<string>, resolve: Resolver) returns (entries: seq<NumstatEntry>, additions: nat, deletions: nat)
    ensures entries == Entries(lines, resolve) && additions == Added(entries) && deletions == Deleted(entries)
  {
    entries, additions, deletions := [], 0, 0;
    for i := 0 to |lines|
      invariant entries == Entries(lines[..i], resolve) && additions == Added(entries) && deletions == Deleted(entries)
    {
      var e := ReadLine(lines[i], resolve);
      EntriesGrow(lines, i, e, resolve);
      if e.Some? {
        SumsGrow(entries, e.value);
        additions := additions + e.value.additions;
        deletions := deletions + e.value.deletions;
        entries := entries + [e.value];
      }
    }
    assert lines[..|lines|] == lines;
  }

  lemma EntriesGrow(lines: seq<string>, i: nat, e: Option<NumstatEntry>, resolve: Resolver)
    requires i < |lines| && e == ReadLine(lines[i], resolve)
    ensures Entries(lines[..i + 1], resolve) == Entries(lines[..i], resolve) + if e.Some? then [e.value] else []
  {
    assert lines[..i + 1][..i] == lines[..i];
  }

  lemma SumsGrow(entries: seq<NumstatEntry>, e: NumstatEntry)
    ensures Added(entries + [e]) == Added(entries) + e.additions && Deleted(entries + [e]) == Deleted(entries) + e.deletions
  {
    assert (entries + [e])[..|entries|] == entries;
  }

  lemma TabAt(a: string, b: string)
    requires '\t' !in a
    ensures Tab(a + "\t" + b) == |a| && (a + "\t" + b)[..|a|] == a && (a + "\t" + b)[|a| + 1..] == b
  {
    var s := a + "\t" + b;
    assert s[|a|] == '\t' && forall i :: 0 <= i < |a| ==> s[i] == a[i];
  }

  lemma FieldsReadBack(added: string, deleted: string, path: string)
    requires '\t' !in added && '\t' !in deleted
    ensures Fields(added + "\t" + (deleted + "\t" + path)) == Some((added, deleted, path))
  {
    TabAt(added, deleted + "\t" + path);
    TabAt(deleted, path);
  }

  lemma CountsReadBack(n: nat)
    ensures Lines(Decimal(n)) == n && Decimal(n) != "-" && '\t' !in Decimal(n)
  {
    DecimalReadsBack(n);
    assert IsDigit(Decimal(n)[0]);
  }

  /** The path of an entry is the path on the line exactly unless it begins with dots or slashes: a dot file loses its dot. */
  lemma PathKeptIff(path: string, resolve: Resolver)
    requires Clean(path) && '\\' !in path && path[0] != '/' && !InQuotes(path)
    ensures RelativePath(path, resolve) == DropFront(path)
    ensures RelativePath(path, resolve) == path <==> path[0] != '.'
  {
    StripIdempotent(path);
    assert Slashed(path) == path;
    FrontShrinks(path[1..]);
  }

  lemma {:induction false} FrontShrinks(s: string)
    ensures |DropFront(s)| <= |s|
  {
    if s != "" { FrontShrinks(s[1..]); }
  }

  lemma DotFilesLoseTheirDot(resolve: Resolver)
    ensures RelativePath(".env", resolve) == "env"
  {
    PathKeptIff(".env", resolve);
    assert ".env"[1..] == "env" && DropFront("env") == "env";
  }

  lemma NothingToStrip(line: string)
    requires line != "" && !IsSpace(line[|line| - 1])
    ensures StripRight(line) == line
  {
  }

  /** A line as git prints it reads back with its counts, and with the path as normalised; only the first two tabs separate. */
  lemma LineReadsBack(additions: nat, deletions: nat, path: string, resolve: Resolver)
    requires Clean(path)
    ensures ReadLine(Decimal(additions) + "\t" + (Decimal(deletions) + "\t" + path), resolve) ==
            Some(NumstatEntry(if RelativePath(path, resolve) == "" then Slashed(path) else RelativePath(path, resolve),
                              Slashed(path), additions, deletions, false))
  {
    var rest := Decimal(deletions) + "\t" + path;
    var line := Decimal(additions) + "\t" + rest;
    CountsReadBack(additions);
    CountsReadBack(deletions);
    assert line[|line| - 1] == path[|path| - 1];
    NothingToStrip(line);
    FieldsReadBack(Decimal(additions), Decimal(deletions), path);
    StripIdempotent(path);
  }
}
