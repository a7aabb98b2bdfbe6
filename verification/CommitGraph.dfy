/** The jj commit graph that landing works on: an append-only DAG, the ancestry test, the
    visible commits, revset resolution, and the rebase that carries bookmarks and working copies. */
module CommitGraph {
  import opened Common

  /** A commit's id is its index in the graph, so parents are always older than children. */
  datatype Commit = Commit(parents: seq<nat>, change: nat, conflict: bool)

  predicate Acyclic(g: seq<Commit>) {
    forall i, k :: 0 <= i < |g| && 0 <= k < |g[i].parents| ==> g[i].parents[k] < i
  }

  type Graph = g: seq<Commit> | Acyclic(g) witness []

  /** `a` is `d` or one of its ancestors: the test `a & ::d`. */
  predicate IsAncestor(g: Graph, a: nat, d: nat)
    requires d < |g|
    decreases d
  {
    a == d || exists k :: 0 <= k < |g[d].parents| && IsAncestor(g, a, g[d].parents[k])
  }

  lemma {:induction false} AncestorIsOlder(g: Graph, a: nat, d: nat)
    requires d < |g| && IsAncestor(g, a, d)
    ensures a <= d
    decreases d
  {
    if a != d {
      var k :| 0 <= k < |g[d].parents| && IsAncestor(g, a, g[d].parents[k]);
      AncestorIsOlder(g, a, g[d].parents[k]);
    }
  }

  lemma {:induction false} AncestorTransitive(g: Graph, a: nat, b: nat, d: nat)
    requires b < |g| && d < |g| && IsAncestor(g, a, b) && IsAncestor(g, b, d)
    ensures IsAncestor(g, a, d)
    decreases d
  {
    if b != d {
      var k :| 0 <= k < |g[d].parents| && IsAncestor(g, b, g[d].parents[k]);
      AncestorTransitive(g, a, b, g[d].parents[k]);
    }
  }

  /** Appending commits never changes ancestry among the commits already there. */
  lemma {:induction false} AncestryStable(g: Graph, h: Graph, a: nat, d: nat)
    requires g <= h && d < |g|
    ensures IsAncestor(g, a, d) <==> IsAncestor(h, a, d)
    decreases d
  {
    assert g[d] == h[d];
    forall k | 0 <= k < |g[d].parents|
      ensures IsAncestor(g, a, g[d].parents[k]) <==> IsAncestor(h, a, h[d].parents[k])
    {
      AncestryStable(g, h, a, g[d].parents[k]);
    }
  }

  /** A set of commits that contains every ancestor of its members. */
  predicate Closed(g: Graph, s: set<nat>) {
    forall x :: x in s ==> x < |g| && forall k :: 0 <= k < |g[x].parents| ==> g[x].parents[k] in s
  }

  lemma {:induction false} ClosedHoldsAncestors(g: Graph, s: set<nat>, a: nat, d: nat)
    requires Closed(g, s) && d in s && IsAncestor(g, a, d)
    ensures a in s
    decreases d
  {
    if a != d {
      var k :| 0 <= k < |g[d].parents| && IsAncestor(g, a, g[d].parents[k]);
      ClosedHoldsAncestors(g, s, a, g[d].parents[k]);
    }
  }

  predicate ClosedFrom(g: Graph, s: set<nat>, n: nat) {
    forall x :: x in s ==> x < |g| && (n <= x ==> forall k :: 0 <= k < |g[x].parents| ==> g[x].parents[k] in s)
  }

  function ParentSet(g: Graph, x: nat): set<nat>
    requires x < |g|
  {
    set p | p in g[x].parents
  }

  /** Adds to `s` the ancestors of its members below `n`, youngest first. */
  function Close(g: Graph, s: set<nat>, n: nat): (r: set<nat>)
    requires n <= |g| && ClosedFrom(g, s, n)
    ensures s <= r && Closed(g, r)
    ensures Closed(g, s) ==> r == s
    decreases n
  {
    if n == 0 then s
    else if n - 1 in s then Close(g, s + ParentSet(g, n - 1), n - 1)
    else Close(g, s, n - 1)
  }

  /** Every commit at or below a commit of `s`: what is visible when `s` are the heads. */
  function Below(g: Graph, s: set<nat>): (r: set<nat>)
    requires forall x :: x in s ==> x < |g|
    ensures s <= r && Closed(g, r)
    ensures Closed(g, s) ==> r == s
  {
    Close(g, s, |g|)
  }

  /** `Below` adds nothing but history: it is inside every ancestor-closed set around `s`. */
  lemma {:induction false} CloseIsLeast(g: Graph, s: set<nat>, n: nat, t: set<nat>)
    requires n <= |g| && ClosedFrom(g, s, n) && s <= t && Closed(g, t)
    ensures Close(g, s, n) <= t
    decreases n
  {
    if n > 0 {
      CloseIsLeast(g, if n - 1 in s then s + ParentSet(g, n - 1) else s, n - 1, t);
    }
  }

  // --- the repository view --------------------------------------------------

  /** The shared repository: the graph, the visible commits, the `main` bookmark and the
      working-copy commit of every registered workspace. */
  datatype Repo = Repo(graph: Graph, visible: set<nat>, main: nat, workspaces: map<string, nat>)

  ghost predicate Valid(r: Repo) {
    && Closed(r.graph, r.visible)
    && r.main in r.visible
    && forall w :: w in r.workspaces ==> r.workspaces[w] < |r.graph|
  }

  /** A full commit id names that commit for ever; a change id names whichever visible commit
      carries the change, and nothing when several do. */
  datatype Revset = CommitId(id: nat) | ChangeId(change: nat)

  predicate Names(r: Repo, rev: Revset, x: nat)
    requires Closed(r.graph, r.visible)
  {
    match rev
    case CommitId(id) => x == id < |r.graph|
    case ChangeId(c) => x in r.visible && r.graph[x].change == c
                        && forall y :: y in r.visible && r.graph[y].change == c ==> y == x
  }

  function Resolve(r: Repo, rev: Revset): (o: Option<nat>)
    requires Closed(r.graph, r.visible)
    ensures o.Some? ==> o.value < |r.graph| && Names(r, rev, o.value)
    ensures o.None? ==> forall x :: !Names(r, rev, x)
  {
    if exists x :: 0 <= x < |r.graph| && Names(r, rev, x) then
      var x: nat :| x < |r.graph| && Names(r, rev, x);
      Some(x)
    else None
  }

  /** Point `main` at `t`; a bookmarked commit and its history are visible. */
  function MoveMain(r: Repo, t: nat): (q: Repo)
    requires Closed(r.graph, r.visible) && t < |r.graph|
    ensures q.main == t && q.graph == r.graph && q.workspaces == r.workspaces
    ensures r.visible <= q.visible && t in q.visible && Closed(q.graph, q.visible)
  {
    r.(main := t, visible := Below(r.graph, r.visible + {t}))
  }

  lemma MoveMainKeepsNames(r: Repo, t: nat, rev: Revset)
    requires Closed(r.graph, r.visible) && Names(r, rev, t)
    ensures Names(MoveMain(r, t), rev, t)
  {
    if rev.ChangeId? { assert r.visible + {t} == r.visible; }
  }

  // --- rebase ---------------------------------------------------------------

  /** Whether rewriting a commit onto the given parents leaves conflict markers. */
  type Merge = (nat, seq<nat>) -> bool

  /** `moved` takes each rewritten commit to its copy. */
  datatype Rewrite = Rewrite(graph: Graph, moved: map<nat, nat>)

  function Carry(moved: map<nat, nat>, x: nat): nat {
    if x in moved then moved[x] else x
  }

  /** The commits a rebase of `s` rewrites: `s` and its visible descendants. */
  function Affected(g: Graph, visible: set<nat>, s: nat): set<nat> {
    {s} + set x | x in visible && x < |g| && IsAncestor(g, s, x)
  }

  function Parents(g: Graph, moved: map<nat, nat>, x: nat): (ps: seq<nat>)
    requires x < |g|
    ensures |ps| == |g[x].parents|
    ensures forall k :: 0 <= k < |ps| ==> ps[k] == Carry(moved, g[x].parents[k])
  {
    seq(|g[x].parents|, k requires 0 <= k < |g[x].parents| => Carry(moved, g[x].parents[k]))
  }

  ghost predicate Consistent(g: Graph, n: nat, r: Rewrite) {
    && g <= r.graph
    && (forall x :: x in r.moved ==> x < n && |g| <= r.moved[x] < |r.graph|)
  }

  /** Append the copy of `x`, hung from the copies of its already rewritten parents. */
  function Copy(g: Graph, x: nat, merge: Merge, q: Rewrite): (r: Rewrite)
    requires Consistent(g, x, q) && x < |g|
    ensures Consistent(g, x + 1, r)
    ensures r.moved == q.moved[x := |q.graph|]
    ensures var ps := Parents(g, q.moved, x);
      r.graph == q.graph + [Commit(ps, g[x].change, merge(x, ps))]
  {
    var ps := Parents(g, q.moved, x);
    Rewrite(q.graph + [Commit(ps, g[x].change, merge(x, ps))], q.moved[x := |q.graph|])
  }

  /** Rewrites, oldest first, every affected commit older than `n`: `s` gets the sole parent `d`,
      a descendant keeps its parents except for those already rewritten. */
  function RewriteUpTo(g: Graph, affected: set<nat>, s: nat, d: nat, merge: Merge, n: nat): (r: Rewrite)
    requires s < |g| && d < |g| && s < n <= |g|
    ensures Consistent(g, n, r) && s in r.moved && r.moved[s] == |g|
    ensures r.graph[|g|] == Commit([d], g[s].change, merge(s, [d]))
    ensures forall x :: x in r.moved <==> (x == s || (s < x < n && x in affected))
    decreases n
  {
    if n == s + 1 then
      Rewrite(g + [Commit([d], g[s].change, merge(s, [d]))], map[s := |g|])
    else
      var q := RewriteUpTo(g, affected, s, d, merge, n - 1);
      if n - 1 in affected then Copy(g, n - 1, merge, q) else q
  }

  /** Every rewritten commit keeps its change id and is in conflict iff merging it onto its new parents is,
      and every rewritten descendant hangs from the rewritten copies of its parents. */
  lemma {:induction false} RewriteCopies(g: Graph, affected: set<nat>, s: nat, d: nat, merge: Merge, n: nat, x: nat)
    requires s < |g| && d < |g| && s < n <= |g|
    requires x in RewriteUpTo(g, affected, s, d, merge, n).moved
    ensures var r := RewriteUpTo(g, affected, s, d, merge, n);
      && r.graph[r.moved[x]].change == g[x].change
      && (x != s ==> r.graph[r.moved[x]].parents == Parents(g, r.moved, x))
      && r.graph[r.moved[x]].conflict == merge(x, r.graph[r.moved[x]].parents)
    decreases n
  {
    if n > s + 1 {
      var q := RewriteUpTo(g, affected, s, d, merge, n - 1);
      var r := RewriteUpTo(g, affected, s, d, merge, n);
      if x in q.moved { RewriteCopies(g, affected, s, d, merge, n - 1, x); }
      assert Parents(g, r.moved, x) == Parents(g, q.moved, x);
    }
  }

  function Moved(r: Repo, s: nat, d: nat, merge: Merge): (w: Rewrite)
    requires s < |r.graph| && d < |r.graph|
    ensures Consistent(r.graph, |r.graph|, w) && s in w.moved && w.moved[s] == |r.graph|
    ensures w.graph[|r.graph|] == Commit([d], r.graph[s].change, merge(s, [d]))
    ensures forall x :: x in w.moved <==> x in Affected(r.graph, r.visible, s)
  {
    assert forall x :: x in Affected(r.graph, r.visible, s) ==> s <= x < |r.graph| by {
      forall x | x in Affected(r.graph, r.visible, s) ensures s <= x < |r.graph| {
        AncestorIsOlder(r.graph, s, x);
      }
    }
    RewriteUpTo(r.graph, Affected(r.graph, r.visible, s), s, d, merge, |r.graph|)
  }

  /** Every rewritten commit stands on the rewritten source. */
  lemma {:induction false} RewriteAbove(r: Repo, s: nat, d: nat, merge: Merge, x: nat)
    requires Closed(r.graph, r.visible) && s < |r.graph| && d < |r.graph|
    requires x in Moved(r, s, d, merge).moved
    ensures IsAncestor(Moved(r, s, d, merge).graph, |r.graph|, Moved(r, s, d, merge).moved[x])
    decreases x
  {
    if x != s {
      var g, w := r.graph, Moved(r, s, d, merge);
      var k :| 0 <= k < |g[x].parents| && IsAncestor(g, s, g[x].parents[k]);
      var p := g[x].parents[k];
      RewriteAbove(r, s, d, merge, p);
      RewriteCopies(g, Affected(g, r.visible, s), s, d, merge, |g|, x);
      assert w.graph[w.moved[x]].parents[k] == w.moved[p];
    }
  }

  /** The visible commits a rewrite leaves alone, and the ones it creates. */
  function Heads(r: Repo, w: Rewrite): (h: set<nat>) {
    (set x | x in r.visible && x !in w.moved) + (set x | x in w.moved :: w.moved[x])
  }

  /** Rebase `s` onto `d`: rewrite it and its visible descendants; hide the rewritten originals
      unless something still stands on them; carry `main` and the working copies along. */
  function Rebase(r: Repo, s: nat, d: nat, merge: Merge): (q: Repo)
    requires s < |r.graph| && d < |r.graph| && Closed(r.graph, r.visible)
    ensures r.graph < q.graph && q.graph[|r.graph|] == Commit([d], r.graph[s].change, merge(s, [d]))
    ensures Closed(q.graph, q.visible) && |r.graph| in q.visible
  {
    var w := Moved(r, s, d, merge);
    assert w.moved[s] in Heads(r, w);
    Repo(w.graph, Below(w.graph, Heads(r, w)), Carry(w.moved, r.main),
         map n | n in r.workspaces :: Carry(w.moved, r.workspaces[n]))
  }

  /** The graph a rebase leaves is the one the rewriting builds. */
  lemma RebaseBuilds(r: Repo, s: nat, d: nat, merge: Merge)
    requires s < |r.graph| && d < |r.graph| && Closed(r.graph, r.visible)
    ensures Rebase(r, s, d, merge).graph
      == RewriteUpTo(r.graph, Affected(r.graph, r.visible, s), s, d, merge, |r.graph|).graph
  {
  }

  lemma RebaseIsValid(r: Repo, s: nat, d: nat, merge: Merge)
    requires Valid(r) && s < |r.graph| && d < |r.graph|
    ensures Valid(Rebase(r, s, d, merge))
  {
    var w := Moved(r, s, d, merge);
    assert Carry(w.moved, r.main) in Heads(r, w);
  }

  /** Rebasing anything onto `main` only ever carries `main` forward, even when `main` itself is
      rewritten: the old trunk is then the parent of the rewritten source. */
  lemma RebaseOntoMainAdvances(r: Repo, s: nat, merge: Merge)
    requires Valid(r) && s < |r.graph|
    ensures IsAncestor(Rebase(r, s, r.main, merge).graph, r.main, Rebase(r, s, r.main, merge).main)
  {
    var w := Moved(r, s, r.main, merge);
    if r.main in w.moved {
      RewriteAbove(r, s, r.main, merge, r.main);
      assert w.graph[|r.graph|].parents[0] == r.main;
      AncestorTransitive(w.graph, r.main, |r.graph|, w.moved[r.main]);
    }
  }

  /** `main` stays exactly where it is iff the rebased commit is not in its history. */
  lemma RebaseLeavesMain(r: Repo, s: nat, d: nat, merge: Merge)
    requires Valid(r) && s < |r.graph| && d < |r.graph|
    ensures Rebase(r, s, d, merge).main == r.main <==> !IsAncestor(r.graph, s, r.main)
  {
    var w := Moved(r, s, d, merge);
    assert r.main in w.moved ==> w.moved[r.main] != r.main;
  }

  /** A visible child of a rewritten commit is rewritten too. */
  lemma ChildIsAffected(g: Graph, visible: set<nat>, s: nat, x: nat, k: nat)
    requires x in visible && x < |g| && k < |g[x].parents| && g[x].parents[k] in Affected(g, visible, s)
    ensures x in Affected(g, visible, s)
  {
    assert IsAncestor(g, s, g[x].parents[k]);
  }

  /** The new repository sees only what the rewrite left alone and what it created. */
  lemma RebaseHidesSource(r: Repo, s: nat, d: nat, merge: Merge)
    requires Valid(r) && s < |r.graph| && d in r.visible && !IsAncestor(r.graph, s, d)
    ensures Rebase(r, s, d, merge).visible == Heads(r, Moved(r, s, d, merge))
  {
    assert s != d;
    hide IsAncestor, RewriteUpTo;
    var g, w := r.graph, Moved(r, s, d, merge);
    var heads := Heads(r, w);
    forall x, k | x in heads && 0 <= k < |w.graph[x].parents|
      ensures w.graph[x].parents[k] in heads
    {
      if x in r.visible {
        if g[x].parents[k] in w.moved { ChildIsAffected(g, r.visible, s, x, k); }
      } else {
        var z :| z in w.moved && w.moved[z] == x;
        RewriteCopies(g, Affected(g, r.visible, s), s, d, merge, |g|, z);
        if z != s { assert w.graph[x].parents[k] == Carry(w.moved, g[z].parents[k]); }
      }
    }
  }

  /** After a rebase the change id names the rewritten commit, provided it named the source
      before and the destination does not stand on the source. */
  lemma RebaseMovesChange(r: Repo, s: nat, d: nat, merge: Merge)
    requires Valid(r) && s < |r.graph| && d in r.visible
    requires Names(r, ChangeId(r.graph[s].change), s) && !IsAncestor(r.graph, s, d)
    ensures Names(Rebase(r, s, d, merge), ChangeId(r.graph[s].change), |r.graph|)
  {
    RebaseHidesSource(r, s, d, merge);
    forall y | y in Rebase(r, s, d, merge).visible && y != |r.graph|
      ensures Rebase(r, s, d, merge).graph[y].change != r.graph[s].change
    {
      HeadKeepsOtherChange(r, s, d, merge, y);
    }
  }

  lemma HeadKeepsOtherChange(r: Repo, s: nat, d: nat, merge: Merge, y: nat)
    requires Valid(r) && s < |r.graph| && d < |r.graph|
    requires Names(r, ChangeId(r.graph[s].change), s)
    requires y in Heads(r, Moved(r, s, d, merge)) && y != |r.graph|
    ensures y < |Moved(r, s, d, merge).graph| && Moved(r, s, d, merge).graph[y].change != r.graph[s].change
  {
    var w := Moved(r, s, d, merge);
    if y !in r.visible {
      var z :| z in w.moved && w.moved[z] == y;
      RewriteCopies(r.graph, Affected(r.graph, r.visible, s), s, d, merge, |r.graph|, z);
    }
  }

  /** What a rebase of `s` makes of a commit: `s` and the visible commits on it give way to a copy of the
      same change, on the rewritten source; any other is left as it is. */
  predicate Carried(r: Repo, q: Repo, s: nat, x: nat, y: nat)
    requires x < |r.graph|
  {
    if x == s || (x in r.visible && IsAncestor(r.graph, s, x)) then
      |r.graph| <= y < |q.graph| && q.graph[y].change == r.graph[x].change && IsAncestor(q.graph, |r.graph|, y)
    else y == x
  }

  /** `main` and every working copy go along with the commit they are at. */
  lemma RebaseCarries(r: Repo, s: nat, d: nat, merge: Merge)
    requires Valid(r) && s < |r.graph| && d < |r.graph|
    ensures var q := Rebase(r, s, d, merge);
      && Carried(r, q, s, r.main, q.main) && q.workspaces.Keys == r.workspaces.Keys
      && forall n :: n in r.workspaces ==> Carried(r, q, s, r.workspaces[n], q.workspaces[n])
  {
    var w := Moved(r, s, d, merge);
    forall x: nat | x < |r.graph| ensures Carried(r, Rebase(r, s, d, merge), s, x, Carry(w.moved, x)) {
      if x in w.moved {
        RewriteAbove(r, s, d, merge, x);
        RewriteCopies(r.graph, Affected(r.graph, r.visible, s), s, d, merge, |r.graph|, x);
      }
    }
  }
}
