/** Git as the executors see it: content-addressed commits, three-way revert, and a checkout
    whose HEAD is attached to one branch. A commit id is the hash of the commit's content, so a
    commit is identified with its content: equal content, equal id; history is immutable. */
module Git {
  import opened Options

  /** A tree maps repository paths to blob ids. */
  type Tree = map<string, nat>

  datatype Commit = Commit(parents: seq<Commit>, tree: Tree, stamp: nat)

  /** Text a caller hands to git or the ledger: a full commit id, or any other (stripped) text. */
  datatype Rev = Id(commit: Commit) | Text(text: string) {
    predicate Blank() { this == Text("") }
  }

  /** `git merge-base --is-ancestor a c`: reflexive, through any parent. */
  predicate Ancestor(a: Commit, c: Commit) {
    a == c || exists i :: 0 <= i < |c.parents| && Ancestor(a, c.parents[i])
  }

  lemma {:induction false} AncestorTransitive(a: Commit, b: Commit, c: Commit)
    requires Ancestor(a, b) && Ancestor(b, c)
    ensures Ancestor(a, c)
  {
    if b != c {
      var i :| 0 <= i < |c.parents| && Ancestor(b, c.parents[i]);
      AncestorTransitive(a, b, c.parents[i]);
    }
  }

  /** Longest distance to a root; history only ever deepens. */
  function Height(c: Commit): nat
    decreases c, 1
  {
    1 + Tallest(c.parents)
  }

  function Tallest(cs: seq<Commit>): (h: nat)
    ensures forall c :: c in cs ==> Height(c) <= h
    decreases cs, 0
  {
    if cs == [] then 0
    else
      var h := Tallest(cs[1..]);
      if Height(cs[0]) > h then Height(cs[0]) else h
  }

  lemma {:induction false} AncestorHeight(a: Commit, c: Commit)
    requires Ancestor(a, c)
    ensures a == c || Height(a) < Height(c)
  {
    if a != c {
      var i :| 0 <= i < |c.parents| && Ancestor(a, c.parents[i]);
      AncestorHeight(a, c.parents[i]);
      assert c.parents[i] in c.parents;
    }
  }

  // ---- three-way merge of trees, as used by `git revert` ----

  function At(t: Tree, p: string): Option<nat> { if p in t then Some(t[p]) else None }

  predicate Clashes(base: Tree, ours: Tree, theirs: Tree, p: string) {
    At(ours, p) != At(base, p) && At(theirs, p) != At(base, p) && At(ours, p) != At(theirs, p)
  }

  function Choose(base: Tree, ours: Tree, theirs: Tree, p: string): Option<nat> {
    if At(ours, p) == At(base, p) then At(theirs, p) else At(ours, p)
  }

  /** None is a conflict. */
  function ThreeWay(base: Tree, ours: Tree, theirs: Tree): Option<Tree> {
    var paths := base.Keys + ours.Keys + theirs.Keys;
    if exists p :: p in paths && Clashes(base, ours, theirs, p) then None
    else Some(map p | p in paths && Choose(base, ours, theirs, p).Some? :: Choose(base, ours, theirs, p).value)
  }

  /** Undoing a change on the very tree it produced never conflicts and restores the old tree. */
  lemma UndoOnTop(changed: Tree, original: Tree)
    ensures ThreeWay(changed, changed, original) == Some(original)
  {
    var paths := changed.Keys + changed.Keys + original.Keys;
    assert forall p :: p in paths ==> !Clashes(changed, changed, original, p);
    var m := map p | p in paths && Choose(changed, changed, original, p).Some? :: Choose(changed, changed, original, p).value;
    assert m == original;
  }

  // ---- a checkout ----

  /** HEAD is the symbolic ref `branch`; `refs` are the full ref names that resolve. */
  datatype WorkTree = WorkTree(branch: string, refs: map<string, Commit>)

  const ROOT := Commit([], map[], 0)

  type Checkout = w: WorkTree | w.branch in w.refs witness WorkTree("refs/heads/main", map["refs/heads/main" := ROOT])

  function Head(w: Checkout): Commit { w.refs[w.branch] }

  function Advance(w: Checkout, c: Commit): (r: Checkout)
    ensures Head(r) == c && r.branch == w.branch
    ensures forall n :: n in w.refs && n != w.branch ==> n in r.refs && r.refs[n] == w.refs[n]
  {
    w.(refs := w.refs[w.branch := c])
  }

  /** Short names live under refs/heads/. */
  function NormalizeRef(ref: string): string {
    if ref == "" then ""
    else if "refs/" <= ref then ref
    else "refs/heads/" + ref
  }
}
