/** Any number of issues landing on the same trunk: their operations interleave with worker
    commits, Merger retries, phase changes made elsewhere, and crashes of the whole process. */
module Trunk {
  import opened Common
  import opened CommitGraph
  import opened State
  import opened Landing

  /** `owner` remembers which issue's work created a commit; commits that were there before are
      nobody's. `running` is lost in a crash, everything else survives. */
  datatype World = World(repo: Repo, owner: seq<Option<Issue>>, rows: map<Issue, Place>, running: map<Issue, Pc>)

  datatype Event =
    | Operate(issue: Issue)
    | Fail(issue: Issue)
    | Start(issue: Issue, rev: Revset)
    | Resume(issue: Issue, rev: Revset)
    | Retry(issue: Issue, merged: nat)
    | Write(issue: Issue, place: Place)
    | Commits(issue: Issue, commit: Commit, visible: set<nat>, workspaces: map<string, nat>)
    | Crash

  ghost predicate Sane(w: World) {
    && Valid(w.repo)
    && |w.owner| == |w.repo.graph|
    && forall i :: i in w.running ==> i in w.rows && Sound(Local(w.repo, w.rows[i]), w.running[i])
  }

  predicate Idle(w: World, i: Issue) {
    i in w.rows && (i !in w.running || Stopped(w.running[i]))
  }

  ghost predicate Enabled(w: World, e: Event) {
    match e
    case Operate(i) => i in w.running
    case Fail(i) => i in w.running
    case Start(i, _) => Idle(w, i)
    case Resume(i, _) => Idle(w, i) && w.rows[i].phase.Landing? && w.rows[i].column.Token?
    case Retry(i, merged) => Idle(w, i) && merged < |w.repo.graph|
    case Write(i, _) => Idle(w, i)
    case Commits(i, commit, visible, workspaces) =>
      && (forall k :: 0 <= k < |commit.parents| ==> commit.parents[k] < |w.repo.graph|)
      && Valid(Repo(w.repo.graph + [commit], visible, w.repo.main, workspaces))
    case Crash => true
  }

  function By(i: Issue, n: nat): (s: seq<Option<Issue>>)
    ensures |s| == n && forall k :: 0 <= k < n ==> s[k] == Some(i)
  {
    seq(n, _ => Some(i))
  }

  ghost function After(w: World, e: Event, merge: Merge): World
    requires Sane(w) && Enabled(w, e)
  {
    match e
    case Operate(i) =>
      var (l, pc) := Step(Local(w.repo, w.rows[i]), w.running[i], merge);
      StepAdvancesMain(Local(w.repo, w.rows[i]), w.running[i], merge);
      World(l.repo, w.owner + By(i, |l.repo.graph| - |w.repo.graph|), w.rows[i := l.place], w.running[i := pc])
    case Fail(i) => w.(running := w.running[i := Fault])
    case Start(i, rev) => w.(running := w.running[i := Begin(rev)])
    case Resume(i, rev) => w.(running := w.running[i := Entry(rev, w.rows[i].column.sub)])
    case Retry(i, merged) =>
      w.(rows := w.rows[i := LandingAt(RebaseDoneBookmarkPending)], running := w.running[i := Move(merged)])
    case Write(i, place) => w.(rows := w.rows[i := place])
    case Commits(i, commit, visible, workspaces) =>
      w.(repo := Repo(w.repo.graph + [commit], visible, w.repo.main, workspaces), owner := w.owner + [Some(i)])
    case Crash => w.(running := map[])
  }

  /** `ws[0]` is where the run starts and `es[k]` takes `ws[k]` to `ws[k + 1]`. */
  ghost predicate IsRun(ws: seq<World>, es: seq<Event>, merge: Merge) {
    && |ws| == |es| + 1 && Sane(ws[0])
    && forall k :: 0 <= k < |es| ==> Sane(ws[k]) && Enabled(ws[k], es[k]) && ws[k + 1] == After(ws[k], es[k], merge)
  }

  lemma AfterIsSane(w: World, e: Event, merge: Merge)
    requires Sane(w) && Enabled(w, e)
    ensures var v := After(w, e, merge);
      && Sane(v) && w.repo.graph <= v.repo.graph
      && IsAncestor(v.repo.graph, w.repo.main, v.repo.main)
  {
    if e.Operate? {
      var l := Local(w.repo, w.rows[e.issue]);
      StepAdvancesMain(l, w.running[e.issue], merge);
      StepIsSound(l, w.running[e.issue], merge);
    }
  }

  lemma MainIsACommit(w: World)
    requires Sane(w)
    ensures w.repo.main < |w.repo.graph| && IsAncestor(w.repo.graph, w.repo.main, w.repo.main)
  {
  }

  /** Trunk safety: over every run, with any revsets, the successive values of `main` form an
      ancestor chain. */
  lemma {:induction false} MainOnlyAdvances(ws: seq<World>, es: seq<Event>, merge: Merge, i: nat, j: nat)
    requires IsRun(ws, es, merge) && i <= j < |ws|
    ensures Sane(ws[j]) && ws[i].repo.graph <= ws[j].repo.graph
    ensures ws[i].repo.main < |ws[j].repo.graph| && IsAncestor(ws[j].repo.graph, ws[i].repo.main, ws[j].repo.main)
    decreases j
  {
    hide After, Enabled, Sane, IsAncestor;
    if i == j {
      if j > 0 {
        AfterIsSane(ws[j - 1], es[j - 1], merge);
        assert ws[j - 1 + 1] == After(ws[j - 1], es[j - 1], merge);
      }
      MainIsACommit(ws[j]);
    } else {
      MainOnlyAdvances(ws, es, merge, i, j - 1);
      AfterIsSane(ws[j - 1], es[j - 1], merge);
      assert ws[j - 1 + 1] == After(ws[j - 1], es[j - 1], merge);
      MainIsACommit(ws[j - 1]);
      MainIsACommit(ws[j]);
      AncestryStable(ws[j - 1].repo.graph, ws[j].repo.graph, ws[i].repo.main, ws[j - 1].repo.main);
      AncestorTransitive(ws[j].repo.graph, ws[i].repo.main, ws[j - 1].repo.main, ws[j].repo.main);
    }
  }

  // --- no conflicted trunk --------------------------------------------------

  /** Where an issue stands while its work has certainly not been landed. */
  predicate Unlanded(p: Place) {
    || p.phase.Graphed? || p.phase.Implementing? || p.phase.QaGate? || p.phase.AdversaryReview?
    || p.phase.Converged? || p.phase.AwaitingInboundApproval? || p == LandingAt(RebaseStarted)
  }

  /** The revset is the commit id of the issue's own work. */
  predicate Own(w: World, i: Issue, rev: Revset) {
    rev.CommitId? && rev.id < |w.owner| && w.owner[rev.id] == Some(i)
  }

  predicate Clean(w: World, x: nat) {
    x < |w.repo.graph| && !w.repo.graph[x].conflict
  }

  /** What the orchestrator keeps to: it lands an issue's own commits by commit id, takes a Merger's
      commit only when it is clean, never sends a landed issue back before the rebase, and bases
      workers on trunk or on the same issue's work. Only a resume at the bookmark move, which does
      not look for conflicts again, needs its commit to be clean. */
  predicate Disciplined(w: World, e: Event) {
    match e
    case Operate(_) => true
    case Fail(_) => true
    case Start(i, rev) => Own(w, i, rev) && i in w.rows && Unlanded(w.rows[i])
    case Resume(i, rev) =>
      Own(w, i, rev)
      && (i in w.rows && w.rows[i] == LandingAt(RebaseDoneBookmarkPending) ==> Clean(w, rev.id))
    case Retry(i, merged) => Own(w, i, CommitId(merged)) && Clean(w, merged)
    case Write(i, place) => Unlanded(place) ==> i in w.rows && Unlanded(w.rows[i])
    case Commits(i, commit, _, _) =>
      forall k :: 0 <= k < |commit.parents| ==>
        commit.parents[k] < |w.repo.graph| && (InTrunk(w.repo, commit.parents[k]) || Own(w, i, CommitId(commit.parents[k])))
    case Crash => true
  }

  predicate InTrunk(r: Repo, x: nat) {
    r.main < |r.graph| && IsAncestor(r.graph, x, r.main)
  }

  /** Outside trunk, no commit stands on another issue's work. */
  predicate Separate(r: Repo, owner: seq<Option<Issue>>) {
    |owner| == |r.graph| && forall x, k :: 0 <= x < |r.graph| && 0 <= k < |r.graph[x].parents| ==>
      owner[r.graph[x].parents[k]] == owner[x] || InTrunk(r, r.graph[x].parents[k])
  }

  predicate InFlight(w: World, i: Issue, pc: Pc)
    requires i in w.rows
  {
    match pc
    case Begin(rev) => Own(w, i, rev) && Unlanded(w.rows[i])
    case Check(rev) => Own(w, i, rev) && Unlanded(w.rows[i])
    case Skip(rev) => Own(w, i, rev) && Unlanded(w.rows[i])
    case DoRebase(rev) => Own(w, i, rev) && Unlanded(w.rows[i])
    case Rebased(t) => Own(w, i, CommitId(t))
    case Bookmark(rev) => Own(w, i, rev) && Clean(w, rev.id) && !Unlanded(w.rows[i])
    case Move(t) => Own(w, i, CommitId(t)) && Clean(w, t) && !Unlanded(w.rows[i])
    case _ => true
  }

  /** No unlanded issue's work is in trunk. */
  predicate KeptOut(w: World) {
    forall i, x :: i in w.rows && Unlanded(w.rows[i]) && 0 <= x < |w.owner| && w.owner[x] == Some(i) ==> !InTrunk(w.repo, x)
  }

  ghost predicate Orderly(w: World) {
    && Sane(w) && Separate(w.repo, w.owner) && KeptOut(w) && Clean(w, w.repo.main)
    && forall i :: i in w.running ==> InFlight(w, i, w.running[i])
  }

  /** What stands on commits outside trunk is the same issue's work. */
  lemma {:induction false} DescendantsAreOwn(r: Repo, owner: seq<Option<Issue>>, x: nat, d: nat)
    requires Valid(r) && Separate(r, owner) && d < |r.graph| && IsAncestor(r.graph, x, d) && !InTrunk(r, x)
    ensures x <= d && owner[d] == owner[x]
    decreases d
  {
    AncestorIsOlder(r.graph, x, d);
    if x != d {
      var k :| 0 <= k < |r.graph[d].parents| && IsAncestor(r.graph, x, r.graph[d].parents[k]);
      var p := r.graph[d].parents[k];
      DescendantsAreOwn(r, owner, x, p);
      if InTrunk(r, p) { AncestorTransitive(r.graph, x, p, r.main); }
    }
  }

  /** A new commit on trunk or on the same issue's work leaves the issues apart. */
  lemma AppendKeepsApart(r: Repo, owner: seq<Option<Issue>>, i: Issue, c: Commit)
    requires r.main < |r.graph| && Separate(r, owner)
    requires forall k :: 0 <= k < |c.parents| ==>
      c.parents[k] < |r.graph| && (InTrunk(r, c.parents[k]) || owner[c.parents[k]] == Some(i))
    ensures Separate(r.(graph := r.graph + [c]), owner + [Some(i)])
  {
    hide IsAncestor;
    var q := r.(graph := r.graph + [c]);
    forall x, k | 0 <= x < |q.graph| && 0 <= k < |q.graph[x].parents|
      ensures (owner + [Some(i)])[q.graph[x].parents[k]] == (owner + [Some(i)])[x] || InTrunk(q, q.graph[x].parents[k])
    {
      AncestryStable(r.graph, q.graph, q.graph[x].parents[k], r.main);
    }
  }

  /** Rewriting one issue's commits onto trunk leaves the issues apart. */
  lemma {:induction false} RewriteKeepsApart(r: Repo, owner: seq<Option<Issue>>, i: Issue, affected: set<nat>, s: nat, merge: Merge, n: nat)
    requires Valid(r) && Separate(r, owner) && s < n <= |r.graph| && s in affected
    requires forall x :: x in affected ==> x < |r.graph| && owner[x] == Some(i)
    ensures var w := RewriteUpTo(r.graph, affected, s, r.main, merge, n);
      Separate(r.(graph := w.graph), owner + By(i, |w.graph| - |r.graph|))
    decreases n
  {
    assert InTrunk(r, r.main);
    hide IsAncestor, Separate;
    if n == s + 1 {
      assert By(i, 1) == [Some(i)];
      AppendKeepsApart(r, owner, i, Commit([r.main], r.graph[s].change, merge(s, [r.main])));
    } else {
      RewriteKeepsApart(r, owner, i, affected, s, merge, n - 1);
      if n - 1 in affected {
        CopyKeepsApart(r, owner, i, n - 1, merge, RewriteUpTo(r.graph, affected, s, r.main, merge, n - 1));
      }
    }
  }

  lemma CopyKeepsApart(r: Repo, owner: seq<Option<Issue>>, i: Issue, x: nat, merge: Merge, q: Rewrite)
    requires Valid(r) && Separate(r, owner) && x < |r.graph| && owner[x] == Some(i)
    requires Consistent(r.graph, x, q)
    requires Separate(r.(graph := q.graph), owner + By(i, |q.graph| - |r.graph|))
    ensures var w := Copy(r.graph, x, merge, q);
      Separate(r.(graph := w.graph), owner + By(i, |w.graph| - |r.graph|))
  {
    hide IsAncestor;
    var ps := Parents(r.graph, q.moved, x);
    forall k | 0 <= k < |ps|
      ensures ps[k] < |q.graph|
      ensures InTrunk(r.(graph := q.graph), ps[k]) || (owner + By(i, |q.graph| - |r.graph|))[ps[k]] == Some(i)
    {
      AncestryStable(r.graph, q.graph, ps[k], r.main);
    }
    AppendKeepsApart(r.(graph := q.graph), owner + By(i, |q.graph| - |r.graph|), i, Commit(ps, r.graph[x].change, merge(x, ps)));
    var w := Copy(r.graph, x, merge, q);
    assert owner + By(i, |q.graph| - |r.graph|) + [Some(i)] == owner + By(i, |w.graph| - |r.graph|);
  }

  lemma AffectedAreOwn(r: Repo, owner: seq<Option<Issue>>, s: nat)
    requires Valid(r) && Separate(r, owner) && s < |r.graph| && !InTrunk(r, s)
    ensures forall x :: x in Affected(r.graph, r.visible, s) ==> x < |r.graph| && owner[x] == owner[s]
  {
    forall x | x in Affected(r.graph, r.visible, s) ensures x < |r.graph| && owner[x] == owner[s] {
      hide IsAncestor, Separate;
      if x != s { DescendantsAreOwn(r, owner, s, x); }
    }
  }

  lemma SourceIsAffected(g: Graph, visible: set<nat>, s: nat)
    ensures s in Affected(g, visible, s)
  {
  }

  lemma RewritingKeepsApart(r: Repo, owner: seq<Option<Issue>>, i: Issue, s: nat, merge: Merge, q: Repo)
    requires Valid(r) && Separate(r, owner) && s < |r.graph| && !InTrunk(r, s) && owner[s] == Some(i)
    requires q.graph == RewriteUpTo(r.graph, Affected(r.graph, r.visible, s), s, r.main, merge, |r.graph|).graph && q.main == r.main
    ensures |r.graph| <= |q.graph| && Separate(q, owner + By(i, |q.graph| - |r.graph|))
  {
    hide IsAncestor, RewriteUpTo, Separate, Affected, InTrunk;
    AffectedAreOwn(r, owner, s);
    SourceIsAffected(r.graph, r.visible, s);
    RewriteKeepsApart(r, owner, i, Affected(r.graph, r.visible, s), s, merge, |r.graph|);
    SeparateIgnoresView(r.(graph := q.graph), q, owner + By(i, |q.graph| - |r.graph|));
  }

  lemma RebaseKeepsApart(r: Repo, owner: seq<Option<Issue>>, i: Issue, s: nat, merge: Merge)
    requires Valid(r) && Separate(r, owner) && s < |r.graph| && !InTrunk(r, s) && owner[s] == Some(i)
    ensures var q := Rebase(r, s, r.main, merge);
      q.main == r.main && Separate(q, owner + By(i, |q.graph| - |r.graph|))
  {
    hide IsAncestor, RewriteUpTo, Rebase, Separate, Affected;
    RebaseLeavesMain(r, s, r.main, merge);
    RebaseBuilds(r, s, r.main, merge);
    RewritingKeepsApart(r, owner, i, s, merge, Rebase(r, s, r.main, merge));
  }

  lemma SeparateIgnoresView(r: Repo, q: Repo, owner: seq<Option<Issue>>)
    requires Separate(r, owner) && r.graph == q.graph && r.main == q.main
    ensures Separate(q, owner)
  {
    assert forall x :: InTrunk(q, x) == InTrunk(r, x);
  }

  /** Work that only grew keeps every other landing in its place. */
  lemma GrowthKeepsOrder(w: World, v: World, i: Issue)
    requires Orderly(w) && Sane(v) && Separate(v.repo, v.owner)
    requires w.repo.graph <= v.repo.graph && w.owner <= v.owner && v.repo.main == w.repo.main
    requires forall x :: |w.owner| <= x < |v.owner| ==> v.owner[x] == Some(i)
    requires forall j :: j in v.rows && j != i ==> j in w.rows && v.rows[j] == w.rows[j]
    requires i in v.rows ==> Unlanded(v.rows[i]) ==> i in w.rows && Unlanded(w.rows[i])
    requires forall j :: j in v.running && j != i ==> j in w.running && v.running[j] == w.running[j]
    requires i in v.running ==> InFlight(v, i, v.running[i])
    ensures Orderly(v)
  {
    hide IsAncestor, Separate;
    forall j, x | j in v.rows && Unlanded(v.rows[j]) && 0 <= x < |v.owner| && v.owner[x] == Some(j)
      ensures !InTrunk(v.repo, x)
    {
      if x < |w.owner| {
        AncestryStable(w.repo.graph, v.repo.graph, x, w.repo.main);
      } else if InTrunk(v.repo, x) {
        AncestorIsOlder(v.repo.graph, x, v.repo.main);
      }
    }
    forall j | j in v.running ensures InFlight(v, j, v.running[j]) {
      if j != i { assert InFlight(w, j, w.running[j]); }
    }
  }

  /** Moving trunk forward to one issue's commit takes in that issue's work and nobody else's. */
  lemma AdvanceTakesOwn(r: Repo, owner: seq<Option<Issue>>, t: nat)
    requires Valid(r) && Separate(r, owner) && t < |r.graph| && IsAncestor(r.graph, r.main, t)
    ensures var q := r.(main := t);
      && Separate(q, owner)
      && forall x :: 0 <= x < |owner| && InTrunk(q, x) && !InTrunk(r, x) ==> owner[x] == owner[t]
  {
    var q := r.(main := t);
    assert Separate(q, owner) by {
      forall x: nat | x < |owner| && InTrunk(r, x) ensures InTrunk(q, x) {
        AncestorTransitive(r.graph, x, r.main, t);
      }
    }
    hide Separate, IsAncestor;
    forall x: nat | x < |owner| && InTrunk(q, x) && !InTrunk(r, x) ensures owner[x] == owner[t] {
      assert IsAncestor(r.graph, x, t);
      DescendantsAreOwn(r, owner, x, t);
    }
  }

  /** Moving trunk to one issue's clean commit keeps every unlanded issue out of it. */
  lemma MoveKeepsOrder(w: World, i: Issue, merge: Merge)
    requires Orderly(w) && i in w.running && w.running[i].Move?
    ensures Orderly(After(w, Operate(i), merge))
  {
    hide Below, IsAncestor, Separate;
    var v, t := After(w, Operate(i), merge), w.running[i].target;
    AfterIsSane(w, Operate(i), merge);
    assert By(i, 0) == [];
    assert InFlight(w, i, w.running[i]);
    assert v.owner == w.owner;
    if v.repo == w.repo {
      GrowthKeepsOrder(w, v, i);
    } else {
      TrunkMoveKeepsOrder(w, v, i, t);
    }
  }

  lemma TrunkMoveKeepsOrder(w: World, v: World, i: Issue, t: nat)
    requires Orderly(w) && Own(w, i, CommitId(t)) && Clean(w, t) && IsAncestor(w.repo.graph, w.repo.main, t)
    requires Sane(v) && i in w.rows && v.owner == w.owner && v.repo == MoveMain(w.repo, t)
    requires !Unlanded(w.rows[i]) && v.rows == w.rows && i in w.running && v.running == w.running[i := Pc.Moved]
    ensures Orderly(v)
  {
    hide Below, IsAncestor, Separate;
    AdvanceTakesOwn(w.repo, w.owner, t);
    SeparateIgnoresView(w.repo.(main := t), v.repo, v.owner);
    forall j, x | j in v.rows && Unlanded(v.rows[j]) && 0 <= x < |v.owner| && v.owner[x] == Some(j)
      ensures !InTrunk(v.repo, x)
    {
      assert InTrunk(v.repo, x) == InTrunk(w.repo.(main := t), x);
    }
    forall j | j in v.running ensures InFlight(v, j, v.running[j]) {
      assert InFlight(w, j, w.running[j]);
    }
  }

  lemma RebaseKeepsOrder(w: World, i: Issue, merge: Merge)
    requires Orderly(w) && i in w.running && w.running[i].DoRebase?
    ensures Orderly(After(w, Operate(i), merge))
  {
    hide IsAncestor, Rebase, Separate;
    var rev, v := w.running[i].rev, After(w, Operate(i), merge);
    AfterIsSane(w, Operate(i), merge);
    assert By(i, 0) == [];
    assert InFlight(w, i, w.running[i]);
    if Resolve(w.repo, rev).Some? {
      RebaseKeepsApart(w.repo, w.owner, i, rev.id, merge);
    } else {
      assert v.repo == w.repo && v.owner == w.owner;
    }
    GrowthKeepsOrder(w, v, i);
  }

  /** The other operations leave the repository alone and move the issue from one point that holds to
      another. */
  lemma RowStepFlies(w: World, i: Issue, merge: Merge)
    requires Orderly(w) && i in w.running && !w.running[i].DoRebase? && !w.running[i].Move?
    ensures var v := After(w, Operate(i), merge);
      && v.repo == w.repo && v.owner == w.owner
      && (Unlanded(v.rows[i]) ==> Unlanded(w.rows[i]))
      && InFlight(v, i, v.running[i])
  {
    assert InFlight(w, i, w.running[i]);
    hide IsAncestor, Separate, Rebase, MoveMain, KeptOut, Sane;
    assert By(i, 0) == [];
    match w.running[i]
    case Begin(rev) =>
    case Check(rev) =>
    case Skip(rev) =>
    case Rebased(t) =>
    case Bookmark(rev) =>
    case _ =>
  }

  lemma RowStepKeepsOrder(w: World, i: Issue, merge: Merge)
    requires Orderly(w) && i in w.running && !w.running[i].DoRebase? && !w.running[i].Move?
    ensures Orderly(After(w, Operate(i), merge))
  {
    RowStepFlies(w, i, merge);
    AfterIsSane(w, Operate(i), merge);
    hide IsAncestor, Separate, Step, KeptOut, Sane, InFlight, Unlanded;
    GrowthKeepsOrder(w, After(w, Operate(i), merge), i);
  }

  lemma OperateKeepsOrder(w: World, i: Issue, merge: Merge)
    requires Orderly(w) && i in w.running
    ensures Orderly(After(w, Operate(i), merge))
  {
    hide *;
    match w.running[i]
    case Move(_) => MoveKeepsOrder(w, i, merge);
    case DoRebase(_) => RebaseKeepsOrder(w, i, merge);
    case _ => RowStepKeepsOrder(w, i, merge);
  }

  /** A landing begins, resumes or retries at a point that holds. */
  lemma EntryFlies(w: World, e: Event, merge: Merge)
    requires Orderly(w) && Enabled(w, e) && Disciplined(w, e) && (e.Start? || e.Resume? || e.Retry?)
    ensures var v := After(w, e, merge);
      (Unlanded(v.rows[e.issue]) ==> Unlanded(w.rows[e.issue])) && InFlight(v, e.issue, v.running[e.issue])
  {
    hide IsAncestor, Separate, KeptOut, Sane;
  }

  lemma EntryKeepsOrder(w: World, e: Event, merge: Merge)
    requires Orderly(w) && Enabled(w, e) && Disciplined(w, e) && (e.Start? || e.Resume? || e.Retry?)
    ensures Orderly(After(w, e, merge))
  {
    EntryFlies(w, e, merge);
    AfterIsSane(w, e, merge);
    hide IsAncestor, Separate, KeptOut, Sane, InFlight, Unlanded, Disciplined;
    GrowthKeepsOrder(w, After(w, e, merge), e.issue);
  }

  lemma OthersKeepOrder(w: World, e: Event, merge: Merge)
    requires Orderly(w) && Enabled(w, e) && Disciplined(w, e) && (e.Write? || e.Commits? || e.Crash? || e.Fail?)
    ensures Orderly(After(w, e, merge))
  {
    AfterIsSane(w, e, merge);
    hide IsAncestor, Step, KeptOut, Sane;
    match e
    case Commits(i, commit, visible, workspaces) =>
      AppendKeepsApart(w.repo, w.owner, i, commit);
      SeparateIgnoresView(w.repo.(graph := w.repo.graph + [commit]), After(w, e, merge).repo, w.owner + [Some(i)]);
      CommitsKeepOrder(w, e, merge);
    case Write(i, place) => WriteKeepsOrder(w, e, merge);
    case Crash => GrowthKeepsOrder(w, After(w, e, merge), "");
    case Fail(i) => GrowthKeepsOrder(w, After(w, e, merge), i);
  }

  lemma CommitsKeepOrder(w: World, e: Event, merge: Merge)
    requires Orderly(w) && Enabled(w, e) && e.Commits? && Sane(After(w, e, merge))
    requires Separate(After(w, e, merge).repo, After(w, e, merge).owner)
    ensures Orderly(After(w, e, merge))
  {
    var v := After(w, e, merge);
    if e.issue in v.running { assert InFlight(w, e.issue, w.running[e.issue]); }
    hide IsAncestor, Separate, KeptOut, Sane;
    GrowthKeepsOrder(w, v, e.issue);
  }

  lemma WriteKeepsOrder(w: World, e: Event, merge: Merge)
    requires Orderly(w) && Enabled(w, e) && Disciplined(w, e) && e.Write? && Sane(After(w, e, merge))
    ensures Orderly(After(w, e, merge))
  {
    var v := After(w, e, merge);
    if e.issue in v.running { assert Stopped(w.running[e.issue]); }
    hide IsAncestor, Separate, KeptOut, Sane;
    GrowthKeepsOrder(w, v, e.issue);
  }

  lemma OrderIsKept(w: World, e: Event, merge: Merge)
    requires Orderly(w) && Enabled(w, e) && Disciplined(w, e)
    ensures Orderly(After(w, e, merge))
  {
    hide *;
    match e
    case Operate(i) => EnabledOperate(w, i); OperateKeepsOrder(w, i, merge);
    case Start(_, _) => EntryKeepsOrder(w, e, merge);
    case Resume(_, _) => EntryKeepsOrder(w, e, merge);
    case Retry(_, _) => EntryKeepsOrder(w, e, merge);
    case Write(_, _) => OthersKeepOrder(w, e, merge);
    case Commits(_, _, _, _) => OthersKeepOrder(w, e, merge);
    case Crash => OthersKeepOrder(w, e, merge);
    case Fail(_) => OthersKeepOrder(w, e, merge);
  }

  lemma EnabledOperate(w: World, i: Issue)
    requires Enabled(w, Operate(i))
    ensures i in w.running
  {
  }

  /** Nothing is landing yet and no commit is any issue's work. */
  ghost predicate Fresh(w: World) {
    Sane(w) && w.running == map[] && Clean(w, w.repo.main) && forall x :: 0 <= x < |w.owner| ==> w.owner[x] == None
  }

  lemma {:induction false} OrderHolds(ws: seq<World>, es: seq<Event>, merge: Merge, n: nat)
    requires IsRun(ws, es, merge) && Fresh(ws[0]) && n < |ws|
    requires forall k :: 0 <= k < |es| ==> Disciplined(ws[k], es[k])
    ensures Orderly(ws[n])
    decreases n
  {
    if n > 0 {
      OrderHolds(ws, es, merge, n - 1);
      OrderIsKept(ws[n - 1], es[n - 1], merge);
      assert ws[n] == After(ws[n - 1], es[n - 1], merge);
    }
  }

  /** Over every disciplined run, `main` never names a conflicted commit, and trunk holds no work
      of an issue that has not passed its rebase. */
  lemma MainIsNeverConflicted(ws: seq<World>, es: seq<Event>, merge: Merge, n: nat)
    requires IsRun(ws, es, merge) && Fresh(ws[0]) && n < |ws|
    requires forall k :: 0 <= k < |es| ==> Disciplined(ws[k], es[k])
    ensures Clean(ws[n], ws[n].repo.main) && KeptOut(ws[n])
  {
    OrderHolds(ws, es, merge, n);
  }

  /** The one discipline that the code does not enforce, exactly: a resume at the bookmark move
      puts `main` on a conflicted commit iff the revset names one that stands on `main`. */
  lemma BookmarkResumeConflicts(l: Local, rev: Revset, merge: Merge)
    requires Valid(l.repo) && !l.repo.graph[l.repo.main].conflict
    ensures var r := Run(l, Bookmark(rev), merge).0.repo;
      r.main < |r.graph| && (r.graph[r.main].conflict <==>
        exists c: nat :: c < |l.repo.graph| && Resolve(l.repo, rev) == Some(c) && l.repo.graph[c].conflict && IsAncestor(l.repo.graph, l.repo.main, c))
  {
    assert Run(l, Fault, merge) == (l, Fault);
    hide Run, Below;
    Unroll(l, Bookmark(rev), merge);
    if Resolve(l.repo, rev).Some? {
      MoveEndsAt(l, Resolve(l.repo, rev).value, merge);
    }
  }

  lemma MoveEndsAt(l: Local, t: nat, merge: Merge)
    requires Valid(l.repo) && t < |l.repo.graph|
    ensures var r := Run(l, Move(t), merge).0.repo;
      r.graph == l.repo.graph && r.main == if IsAncestor(l.repo.graph, l.repo.main, t) then t else l.repo.main
  {
    hide Below;
    Unroll(l, Move(t), merge);
    var (l', pc') := Step(l, Move(t), merge);
    if pc'.Moved? {
      Unroll(l', Moved, merge);
      Unroll(l'.(place := LandingAt(BookmarkMovedComplete)), Finish, merge);
    }
  }

  // --- a run that lands a conflict ------------------------------------------

  /** Where issue `i` stands in this world. */
  predicate Stands(w: World, i: Issue, l: Local, pc: Option<Pc>) {
    && w.repo == l.repo && i in w.rows && w.rows[i] == l.place
    && (pc.Some? ==> i in w.running && w.running[i] == pc.value) && (pc.None? ==> i !in w.running)
  }

  ghost predicate Reached(ws: seq<World>, es: seq<Event>, merge: Merge, i: Issue, l: Local, pc: Option<Pc>) {
    IsRun(ws, es, merge) && Sane(ws[|es|]) && Stands(ws[|es|], i, l, pc)
  }

  lemma RunGoesOn(ws: seq<World>, es: seq<Event>, e: Event, merge: Merge)
    requires IsRun(ws, es, merge) && Sane(ws[|es|]) && Enabled(ws[|es|], e)
    ensures var v := After(ws[|es|], e, merge);
      IsRun(ws + [v], es + [e], merge) && Sane(v)
  {
    AfterIsSane(ws[|es|], e, merge);
    hide Enabled, After, Sane;
    var vs, fs := ws + [After(ws[|es|], e, merge)], es + [e];
    forall k | 0 <= k < |fs| ensures Sane(vs[k]) && Enabled(vs[k], fs[k]) && vs[k + 1] == After(vs[k], fs[k], merge) {
      assert k < |es| ==> vs[k] == ws[k] && vs[k + 1] == ws[k + 1] && fs[k] == es[k];
    }
  }

  lemma Operates(ws: seq<World>, es: seq<Event>, merge: Merge, i: Issue, l: Local, pc: Pc) returns (vs: seq<World>)
    requires Reached(ws, es, merge, i, l, Some(pc))
    ensures Sound(l, pc) && var (m, next) := Step(l, pc, merge);
      Reached(vs, es + [Operate(i)], merge, i, m, Some(next)) && vs[0] == ws[0]
  {
    hide IsRun, Step;
    LengthOfRun(ws, es, merge);
    RunGoesOn(ws, es, Operate(i), merge);
    vs := ws + [After(ws[|es|], Operate(i), merge)];
  }

  lemma LengthOfRun(ws: seq<World>, es: seq<Event>, merge: Merge)
    requires IsRun(ws, es, merge)
    ensures |ws| == |es| + 1 && Sane(ws[0])
  {
    hide Sane;
  }

  lemma Takes(ws: seq<World>, es: seq<Event>, merge: Merge, i: Issue, l: Local, pc: Option<Pc>, e: Event, m: Local, next: Option<Pc>) returns (vs: seq<World>)
    requires Reached(ws, es, merge, i, l, pc) && Enabled(ws[|es|], e) && Stands(After(ws[|es|], e, merge), i, m, next)
    ensures Reached(vs, es + [e], merge, i, m, next) && vs[0] == ws[0]
  {
    hide IsRun, Enabled, After, Sane, Stands;
    LengthOfRun(ws, es, merge);
    RunGoesOn(ws, es, e, merge);
    vs := ws + [After(ws[|es|], e, merge)];
  }

  lemma StepsToConflict(l: Local, rev: Revset, c: nat, merge: Merge)
    requires Valid(l.repo) && Resolve(l.repo, rev) == Some(c) && !IsAncestor(l.repo.graph, l.repo.main, c) && merge(c, [l.repo.main])
    ensures var b := l.(place := LandingAt(RebaseStarted));
      var d := Local(Rebase(l.repo, c, l.repo.main, merge), LandingAt(RebaseStarted));
      && Step(l, Begin(rev), merge) == (b, Check(rev)) && Step(b, Check(rev), merge) == (b, DoRebase(rev))
      && Step(b, DoRebase(rev), merge) == (d, Rebased(|l.repo.graph|)) && Sound(d, Rebased(|l.repo.graph|))
      && Step(d, Rebased(|l.repo.graph|), merge) == (d.(place := LandingAt(Merging)), Conflicted(|l.repo.graph|))
  {
    RebaseIsValid(l.repo, c, l.repo.main, merge);
    assert Rebase(l.repo, c, l.repo.main, merge).graph[|l.repo.graph|].conflict;
    hide IsAncestor, Resolve, Rebase;
  }

  lemma StartsLanding(w: World, i: Issue, rev: Revset, merge: Merge) returns (ws: seq<World>)
    requires Sane(w) && Idle(w, i)
    ensures Reached(ws, [Start(i, rev)], merge, i, Local(w.repo, w.rows[i]), Some(Begin(rev))) && ws[0] == w
  {
    ws := [w, After(w, Start(i, rev), merge)];
    AfterIsSane(w, Start(i, rev), merge);
  }

  /** A landing by change id, up to the conflict it is left to a Merger with. */
  lemma RunsIntoConflict(w: World, i: Issue, c: nat, merge: Merge) returns (ws: seq<World>, es: seq<Event>)
    requires Sane(w) && Idle(w, i) && c < |w.repo.graph| && Resolve(w.repo, ChangeId(w.repo.graph[c].change)) == Some(c)
    requires !IsAncestor(w.repo.graph, w.repo.main, c) && merge(c, [w.repo.main])
    ensures es == [Start(i, ChangeId(w.repo.graph[c].change))] + [Operate(i)] + [Operate(i)] + [Operate(i)] + [Operate(i)]
    ensures Reached(ws, es, merge, i, Local(Rebase(w.repo, c, w.repo.main, merge), LandingAt(Merging)), Some(Conflicted(|w.repo.graph|)))
    ensures ws[0] == w
  {
    var rev, l := ChangeId(w.repo.graph[c].change), Local(w.repo, w.rows[i]);
    var b, d := l.(place := LandingAt(RebaseStarted)), Local(Rebase(w.repo, c, w.repo.main, merge), LandingAt(RebaseStarted));
    hide Reached, Step, Rebase, Resolve, IsAncestor, Valid;
    StepsToConflict(l, rev, c, merge);
    ws := StartsLanding(w, i, rev, merge);
    hide Sane;
    ws := Operates(ws, [Start(i, rev)], merge, i, l, Begin(rev));
    ws := Operates(ws, [Start(i, rev)] + [Operate(i)], merge, i, b, Check(rev));
    ws := Operates(ws, [Start(i, rev)] + [Operate(i)] + [Operate(i)], merge, i, b, DoRebase(rev));
    ws := Operates(ws, [Start(i, rev)] + [Operate(i)] + [Operate(i)] + [Operate(i)], merge, i, d, Rebased(|w.repo.graph|));
    es := [Start(i, rev)] + [Operate(i)] + [Operate(i)] + [Operate(i)] + [Operate(i)];
  }

  /** The Merger's commit, resolved, on top of the conflicted rebase. */
  function WithMerge(q: Repo, t: nat): Repo
    requires t < |q.graph|
  {
    Repo(q.graph + [Commit([t], q.graph[t].change + 1, false)], q.visible + {|q.graph|}, q.main, q.workspaces)
  }

  lemma MergeKeepsNames(q: Repo, t: nat)
    requires Valid(q) && t < |q.graph| && Names(q, ChangeId(q.graph[t].change), t)
    ensures Valid(WithMerge(q, t)) && Resolve(WithMerge(q, t), ChangeId(q.graph[t].change)) == Some(t)
  {
    var m := WithMerge(q, t);
    assert forall x :: x in q.visible ==> m.graph[x] == q.graph[x];
    assert Names(m, ChangeId(q.graph[t].change), t);
  }

  /** What the rebase left: the change names it, it conflicts, and it stands on `main`. */
  lemma ConflictStandsOnMain(r: Repo, c: nat, merge: Merge)
    requires Valid(r) && c < |r.graph| && Resolve(r, ChangeId(r.graph[c].change)) == Some(c)
    requires !IsAncestor(r.graph, r.main, c) && !IsAncestor(r.graph, c, r.main) && merge(c, [r.main])
    ensures var q, t := Rebase(r, c, r.main, merge), |r.graph|;
      && Valid(q) && t < |q.graph| && q.graph[t].conflict && q.graph[t].change == r.graph[c].change
      && Names(q, ChangeId(r.graph[c].change), t) && q.main == r.main && q.main != t && IsAncestor(q.graph, q.main, t)
  {
    RebaseIsValid(r, c, r.main, merge);
    RebaseLeavesMain(r, c, r.main, merge);
    RebaseMovesChange(r, c, r.main, merge);
    assert Rebase(r, c, r.main, merge).graph[|r.graph|].parents[0] == r.main;
  }

  lemma StepsToMove(q: Repo, t: nat, merge: Merge)
    requires Valid(q) && t < |q.graph| && Names(q, ChangeId(q.graph[t].change), t)
    requires q.main != t && IsAncestor(q.graph, q.main, t)
    ensures var m, rev := WithMerge(q, t), ChangeId(q.graph[t].change);
      var l := Local(m, LandingAt(RebaseDoneBookmarkPending));
      && Valid(m) && Step(l, Bookmark(rev), merge) == (l, Move(t)) && Step(l, Move(t), merge) == (l.(repo := MoveMain(m, t)), Moved)
  {
    MergeKeepsNames(q, t);
    AncestryStable(q.graph, WithMerge(q, t).graph, q.main, t);
    hide IsAncestor, Resolve, MoveMain, Names;
  }

  /** The Merger's commit, the retry that records the bookmark step, a crash before the move, and the
      restart. */
  lemma CrashedRetry(ws: seq<World>, es: seq<Event>, i: Issue, q: Repo, t: nat, merge: Merge) returns (vs: seq<World>, more: seq<Event>)
    requires Reached(ws, es, merge, i, Local(q, LandingAt(Merging)), Some(Conflicted(t)))
    requires Valid(q) && t < |q.graph| && Names(q, ChangeId(q.graph[t].change), t)
    ensures more == es + [Commits(i, Commit([t], q.graph[t].change + 1, false), q.visible + {|q.graph|}, q.workspaces)]
                 + [Retry(i, |q.graph|)] + [Event.Crash] + [Resume(i, ChangeId(q.graph[t].change))]
    ensures Reached(vs, more, merge, i, Local(WithMerge(q, t), LandingAt(RebaseDoneBookmarkPending)), Some(Bookmark(ChangeId(q.graph[t].change))))
    ensures vs[0] == ws[0]
  {
    MergeKeepsNames(q, t);
    var rev, m := ChangeId(q.graph[t].change), WithMerge(q, t);
    var e := Commits(i, Commit([t], q.graph[t].change + 1, false), q.visible + {|q.graph|}, q.workspaces);
    var done, pending := Local(m, LandingAt(Merging)), Local(m, LandingAt(RebaseDoneBookmarkPending));
    hide IsRun, Valid, Names, Resolve;
    vs := Takes(ws, es, merge, i, Local(q, LandingAt(Merging)), Some(Conflicted(t)), e, done, Some(Conflicted(t)));
    vs := Takes(vs, es + [e], merge, i, done, Some(Conflicted(t)), Retry(i, |q.graph|), pending, Some(Move(|q.graph|)));
    vs := Takes(vs, es + [e] + [Retry(i, |q.graph|)], merge, i, pending, Some(Move(|q.graph|)), Event.Crash, pending, None);
    vs := Takes(vs, es + [e] + [Retry(i, |q.graph|)] + [Event.Crash], merge, i, pending, None, Resume(i, rev), pending, Some(Bookmark(rev)));
    more := es + [e] + [Retry(i, |q.graph|)] + [Event.Crash] + [Resume(i, rev)];
  }

  /** The failing family, as a run: a change landed by change id conflicts, a Merger resolves it, its
      retry records the bookmark step, and the process dies before the move. The restart lands the
      conflict, although the Merger's commit was clean. */
  lemma ChangeIdResumeLandsConflict(w: World, i: Issue, c: nat, merge: Merge) returns (ws: seq<World>, es: seq<Event>)
    requires Sane(w) && Idle(w, i) && c < |w.repo.graph| && Resolve(w.repo, ChangeId(w.repo.graph[c].change)) == Some(c)
    requires !IsAncestor(w.repo.graph, w.repo.main, c) && !IsAncestor(w.repo.graph, c, w.repo.main)
    requires merge(c, [w.repo.main])
    ensures IsRun(ws, es, merge) && ws[0] == w && |es| == 11 && es[7].Crash? && es[8].Resume? && es[5].Commits? && !es[5].commit.conflict
    ensures var r := ws[|ws| - 1].repo; r.main < |r.graph| && r.graph[r.main].conflict && r.main == |w.repo.graph|
  {
    var q, t := Rebase(w.repo, c, w.repo.main, merge), |w.repo.graph|;
    ConflictStandsOnMain(w.repo, c, merge);
    hide Rebase, IsAncestor, Resolve, Reached, Sane, Names, Valid, IsRun, Idle;
    var e1, ws1;
    ws1, e1 := RunsIntoConflict(w, i, c, merge);
    ws, es := CrashedRetry(ws1, e1, i, q, t, merge);
    ws := MovesToConflict(ws, es, i, q, t, merge);
    es := es + [Operate(i)] + [Operate(i)];
    InOrder(e1, Commits(i, Commit([t], q.graph[t].change + 1, false), q.visible + {|q.graph|}, q.workspaces),
            Retry(i, |q.graph|), Resume(i, ChangeId(q.graph[t].change)), Operate(i));
  }

  lemma InOrder(es: seq<Event>, commits: Event, retry: Event, resume: Event, operate: Event)
    ensures var all, n := es + [commits] + [retry] + [Event.Crash] + [resume] + [operate] + [operate], |es|;
      |all| == n + 6 && all[n] == commits && all[n + 1] == retry && all[n + 2].Crash? && all[n + 3] == resume
  {
  }

  lemma MovesToConflict(ws: seq<World>, es: seq<Event>, i: Issue, q: Repo, t: nat, merge: Merge) returns (vs: seq<World>)
    requires Valid(q) && t < |q.graph| && Names(q, ChangeId(q.graph[t].change), t) && q.graph[t].conflict
    requires q.main != t && IsAncestor(q.graph, q.main, t)
    requires Reached(ws, es, merge, i, Local(WithMerge(q, t), LandingAt(RebaseDoneBookmarkPending)), Some(Bookmark(ChangeId(q.graph[t].change))))
    ensures IsRun(vs, es + [Operate(i)] + [Operate(i)], merge) && |vs| == |es| + 3 && vs[0] == ws[0]
    ensures var r := vs[|vs| - 1].repo; r.main == t && t < |r.graph| && r.graph[t].conflict
  {
    StepsToMove(q, t, merge);
    hide IsAncestor, Reached, Names, Step, Valid, IsRun;
    var pending := Local(WithMerge(q, t), LandingAt(RebaseDoneBookmarkPending));
    vs := Operates(ws, es, merge, i, pending, Bookmark(ChangeId(q.graph[t].change)));
    vs := Operates(vs, es + [Operate(i)], merge, i, pending, Move(t));
    EndsAt(vs, es + [Operate(i)] + [Operate(i)], merge, i, pending.(repo := MoveMain(WithMerge(q, t), t)), Moved);
  }

  lemma EndsAt(ws: seq<World>, es: seq<Event>, merge: Merge, i: Issue, l: Local, pc: Pc)
    requires Reached(ws, es, merge, i, l, Some(pc))
    ensures IsRun(ws, es, merge) && |ws| == |es| + 1 && ws[|ws| - 1].repo == l.repo
  {
    hide Sane;
  }
}
