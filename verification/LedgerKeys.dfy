/** The texts whose SHA-256 the ledger uses as keys (orchestrator/ledger.py): which identities they
    tell apart. The digest itself is taken to be injective. */
module LedgerKeys {
  import opened Text

  /** A nullable column; null and empty give the same text. */
  datatype Nullable = Null | Given(text: string) {
    function OrEmpty(): string { if Null? then "" else Strip(text) }
  }

  function CandidateText(repo: string, targetRef: string, sourceSha: string, baseSha: string): string {
    JoinLines([Strip(repo), Strip(targetRef), Strip(sourceSha), Strip(baseSha)])
  }

  function AttemptText(candidateKey: string, status: string, at: Nullable, result: Nullable, error: Nullable): string {
    JoinLines([Strip(candidateKey), Strip(status), at.OrEmpty(), result.OrEmpty(), error.OrEmpty()])
  }

  function TraceText(candidateKey: string, pre: Nullable, post: Nullable): string {
    JoinLines(["rollback_trace", Strip(candidateKey), pre.OrEmpty(), post.OrEmpty()])
  }

  /** Candidate keys collide only for equal stripped identities; the base sha may hold anything. */
  lemma CandidateKeysDistinct(a: (string, string, string, string), b: (string, string, string, string))
    requires OneLine(Strip(a.0)) && OneLine(Strip(a.1)) && OneLine(Strip(a.2))
    requires OneLine(Strip(b.0)) && OneLine(Strip(b.1)) && OneLine(Strip(b.2))
    ensures CandidateText(a.0, a.1, a.2, a.3) == CandidateText(b.0, b.1, b.2, b.3) <==>
            Strip(a.0) == Strip(b.0) && Strip(a.1) == Strip(b.1) && Strip(a.2) == Strip(b.2) && Strip(a.3) == Strip(b.3)
  {
    if CandidateText(a.0, a.1, a.2, a.3) == CandidateText(b.0, b.1, b.2, b.3) {
      var f := [Strip(a.0), Strip(a.1), Strip(a.2), Strip(a.3)];
      var g := [Strip(b.0), Strip(b.1), Strip(b.2), Strip(b.3)];
      JoinInjective(f, g);
      assert f[0] == g[0] && f[1] == g[1] && f[2] == g[2] && f[3] == g[3];
    }
  }

  datatype Attempt = Attempt(candidateKey: string, status: string, at: Nullable, result: Nullable, error: Nullable) {
    function Key(): string { AttemptText(candidateKey, status, at, result, error) }
    predicate Tidy() { OneLine(Strip(candidateKey)) && OneLine(Strip(status)) && OneLine(at.OrEmpty()) && OneLine(result.OrEmpty()) }
  }

  /** Attempt keys tell attempts apart even though git's error, the last field, may have many lines. */
  lemma AttemptKeysDistinct(a: Attempt, b: Attempt)
    requires a.Tidy() && b.Tidy()
    ensures a.Key() == b.Key() <==>
      && Strip(a.candidateKey) == Strip(b.candidateKey) && Strip(a.status) == Strip(b.status)
      && a.at.OrEmpty() == b.at.OrEmpty() && a.result.OrEmpty() == b.result.OrEmpty() && a.error.OrEmpty() == b.error.OrEmpty()
  {
    if a.Key() == b.Key() {
      var f := [Strip(a.candidateKey), Strip(a.status), a.at.OrEmpty(), a.result.OrEmpty(), a.error.OrEmpty()];
      var g := [Strip(b.candidateKey), Strip(b.status), b.at.OrEmpty(), b.result.OrEmpty(), b.error.OrEmpty()];
      JoinInjective(f, g);
      assert f[0] == g[0] && f[1] == g[1] && f[2] == g[2] && f[3] == g[3] && f[4] == g[4];
    }
  }

  /** Equal after stripping, null and empty alike. */
  predicate SameAttempt(a: Attempt, b: Attempt) {
    && Strip(a.candidateKey) == Strip(b.candidateKey) && Strip(a.status) == Strip(b.status)
    && a.at.OrEmpty() == b.at.OrEmpty() && a.result.OrEmpty() == b.result.OrEmpty() && a.error.OrEmpty() == b.error.OrEmpty()
  }

  /** `record_merge_attempt_receipt` as a table keyed by the joined text: the last row recorded for each attempt. */
  function Record<R>(receipts: map<string, R>, a: Attempt, row: R): map<string, R> { receipts[a.Key() := row] }

  function RecordAll<R>(receipts: map<string, R>, log: seq<(Attempt, R)>): map<string, R> {
    if log == [] then receipts
    else Record(RecordAll(receipts, log[..|log| - 1]), log[|log| - 1].0, log[|log| - 1].1)
  }

  /** Recording any tidy attempts leaves the receipt of every tidy attempt that differs from all of them alone. */
  lemma {:induction false} OtherReceiptsStay<R>(receipts: map<string, R>, log: seq<(Attempt, R)>, b: Attempt)
    requires b.Tidy() && forall i :: 0 <= i < |log| ==> log[i].0.Tidy() && !SameAttempt(log[i].0, b)
    ensures b.Key() in RecordAll(receipts, log) <==> b.Key() in receipts
    ensures b.Key() in receipts ==> RecordAll(receipts, log)[b.Key()] == receipts[b.Key()]
  {
    if log != [] {
      OtherReceiptsStay(receipts, log[..|log| - 1], b);
      AttemptKeysDistinct(log[|log| - 1].0, b);
    }
  }

  /** And each attempt's receipt is the row it was last recorded with. */
  lemma LastReceiptStands<R>(receipts: map<string, R>, a: Attempt, row: R, log: seq<(Attempt, R)>)
    requires a.Tidy() && forall i :: 0 <= i < |log| ==> log[i].0.Tidy() && !SameAttempt(log[i].0, a)
    ensures var after := RecordAll(Record(receipts, a, row), log); a.Key() in after && after[a.Key()] == row
  {
    OtherReceiptsStay(Record(receipts, a, row), log, a);
  }

  /** Trace ids tell apart candidate, pre-merge and post-merge commit. */
  lemma TraceIdsDistinct(k: string, pre: Nullable, post: Nullable, k': string, pre': Nullable, post': Nullable)
    requires OneLine(Strip(k)) && OneLine(pre.OrEmpty()) && OneLine(Strip(k')) && OneLine(pre'.OrEmpty())
    ensures TraceText(k, pre, post) == TraceText(k', pre', post') <==>
            Strip(k) == Strip(k') && pre.OrEmpty() == pre'.OrEmpty() && post.OrEmpty() == post'.OrEmpty()
  {
    if TraceText(k, pre, post) == TraceText(k', pre', post') {
      var f := ["rollback_trace", Strip(k), pre.OrEmpty(), post.OrEmpty()];
      var g := ["rollback_trace", Strip(k'), pre'.OrEmpty(), post'.OrEmpty()];
      JoinInjective(f, g);
      assert f[1] == g[1] && f[2] == g[2] && f[3] == g[3];
    }
  }

  /** The one-line condition is needed: a line break inside a field can be read as a field boundary. */
  lemma LineBreaksCollide()
    ensures CandidateText("a\nb", "c", "d", "e") == CandidateText("a", "b", "c\nd", "e")
    ensures Strip("a\nb") != Strip("a")
  {
    Unstripped("a\nb"); Unstripped("a"); Unstripped("b"); Unstripped("c"); Unstripped("d"); Unstripped("e"); Unstripped("c\nd");
    assert CandidateText("a\nb", "c", "d", "e") == "a\nb" + "\n" + ("c" + "\n" + ("d" + "\n" + "e")) by {
      Join4("a\nb", "c", "d", "e");
    }
    assert CandidateText("a", "b", "c\nd", "e") == "a" + "\n" + ("b" + "\n" + ("c\nd" + "\n" + "e")) by {
      Join4("a", "b", "c\nd", "e");
    }
  }

  lemma Unstripped(s: string)
    requires Stripped(s)
    ensures Strip(s) == s
  {
    StripIdempotent(s);
  }

  lemma Join4(a: string, b: string, c: string, d: string)
    ensures JoinLines([a, b, c, d]) == a + "\n" + (b + "\n" + (c + "\n" + d))
  {
    assert [a, b, c, d][1..] == [b, c, d] && [b, c, d][1..] == [c, d] && [c, d][1..] == [d];
    assert JoinLines([c, d]) == c + "\n" + d;
    assert JoinLines([b, c, d]) == b + "\n" + (c + "\n" + d);
  }
}
