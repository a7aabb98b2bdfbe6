/** What it means for an issue to be recorded as merged: over every run, its landing or its Merger's
    retry did move `main` to a commit, and that commit is in trunk for good. */
module TrunkMerges {
  import opened Common
  import opened CommitGraph
  import opened State
  import opened Landing
  import opened Trunk

  /** The issue is recorded, or about to be recorded, as landed. */
  predicate SaysLanded(w: World, i: Issue) {
    || (i in w.rows && (w.rows[i] == MERGED || w.rows[i] == LandingAt(BookmarkMovedComplete)))
    || (i in w.running && (w.running[i].Moved? || w.running[i].Finish?))
  }

  /** Only landings record an issue as landed; what a restart writes completes one that says so. */
  predicate Honest(w: World, e: Event) {
    e.Write? && (e.place == MERGED || e.place == LandingAt(BookmarkMovedComplete)) ==> SaysLanded(w, e.issue)
  }

  /** The `m`th event is this issue's guarded move to `t`. */
  predicate MovesTo(ws: seq<World>, es: seq<Event>, m: nat, i: Issue, t: nat) {
    m < |es| && m < |ws| && es[m] == Operate(i) && i in ws[m].running && ws[m].running[i] == Move(t)
  }

  predicate Holds(w: World, t: nat) {
    w.repo.main < |w.repo.graph| && IsAncestor(w.repo.graph, t, w.repo.main)
  }

  /** The issue's move to some commit has happened, and that commit is in trunk. */
  ghost predicate HasLanded(ws: seq<World>, es: seq<Event>, n: nat, i: Issue)
    requires n < |ws|
  {
    exists m: nat, t: nat :: m < n && MovesTo(ws, es, m, i, t) && Holds(ws[n], t)
  }

  lemma OnlyMovesLand(w: World, e: Event, merge: Merge, i: Issue)
    requires Sane(w) && Enabled(w, e) && Honest(w, e)
    requires SaysLanded(After(w, e, merge), i) && !SaysLanded(w, i)
    ensures e == Operate(i) && i in w.running && w.running[i].Move?
    ensures var v := After(w, e, merge); v.repo.main == w.running[i].target && v.repo.main < |v.repo.graph|
  {
    hide Valid, IsAncestor, Rebase;
    if e.Operate? && e.issue == i && i in w.running && w.running[i].Move? {
      MoveMoves(Local(w.repo, w.rows[i]), w.running[i].target, merge);
    }
  }

  lemma MoveMoves(l: Local, t: nat, merge: Merge)
    requires Sound(l, Move(t))
    ensures var (m, next) := Step(l, Move(t), merge);
      if IsAncestor(l.repo.graph, l.repo.main, t) then next == Moved && m.repo.main == t && m.place == l.place
      else next == Done && m == l.(place := AWAITING_HUMAN)
    ensures Step(l, Move(t), merge).0.repo.graph == l.repo.graph
  {
  }

  lemma LandedStays(ws: seq<World>, es: seq<Event>, merge: Merge, n: nat, i: Issue)
    requires IsRun(ws, es, merge) && n + 1 < |ws| && HasLanded(ws, es, n, i)
    ensures HasLanded(ws, es, n + 1, i)
  {
    hide After, Enabled, Sane, IsAncestor;
    var m: nat, t: nat :| m < n && MovesTo(ws, es, m, i, t) && Holds(ws[n], t);
    AfterIsSane(ws[n], es[n], merge);
    assert ws[n + 1] == After(ws[n], es[n], merge);
    MainIsACommit(ws[n]);
    MainIsACommit(ws[n + 1]);
    AncestryStable(ws[n].repo.graph, ws[n + 1].repo.graph, t, ws[n].repo.main);
    AncestorTransitive(ws[n + 1].repo.graph, t, ws[n].repo.main, ws[n + 1].repo.main);
    assert Holds(ws[n + 1], t);
  }

  /** Merged means merged: over every run of any issues, with failing operations, refused moves, Merger
      retries, crashes and resumes, an issue that is recorded as landed has moved `main` to a commit,
      and that commit is in the history of `main` from then on. */
  lemma {:induction false} MergedIsInTrunk(ws: seq<World>, es: seq<Event>, merge: Merge, n: nat, i: Issue)
    requires IsRun(ws, es, merge) && n < |ws| && !SaysLanded(ws[0], i)
    requires forall k :: 0 <= k < |es| ==> Honest(ws[k], es[k])
    ensures SaysLanded(ws[n], i) ==> HasLanded(ws, es, n, i)
    decreases n
  {
    hide After, Enabled, Sane, SaysLanded, Honest, HasLanded;
    if n > 0 {
      MergedIsInTrunk(ws, es, merge, n - 1, i);
      var w, e := ws[n - 1], es[n - 1];
      assert ws[n - 1 + 1] == After(w, e, merge);
      if SaysLanded(w, i) {
        LandedStays(ws, es, merge, n - 1, i);
      } else if SaysLanded(ws[n], i) {
        OnlyMovesLand(w, e, merge, i);
        JustLanded(ws, es, n, i, w.running[i].target);
      }
    }
  }

  lemma JustLanded(ws: seq<World>, es: seq<Event>, n: nat, i: Issue, t: nat)
    requires 0 < n < |ws| && MovesTo(ws, es, n - 1, i, t) && ws[n].repo.main == t < |ws[n].repo.graph|
    ensures HasLanded(ws, es, n, i)
  {
    assert Holds(ws[n], t);
  }

  lemma MoverIsOwn(ws: seq<World>, es: seq<Event>, m: nat, i: Issue, t: nat)
    requires MovesTo(ws, es, m, i, t) && Orderly(ws[m])
    ensures Own(ws[m], i, CommitId(t)) && Clean(ws[m], t)
  {
    hide IsAncestor, Separate, KeptOut;
    assert InFlight(ws[m], i, ws[m].running[i]);
  }

  /** And under the orchestrator's discipline the commit is the issue's own, and clean. */
  lemma MergedIsOwn(ws: seq<World>, es: seq<Event>, merge: Merge, n: nat, i: Issue)
    requires IsRun(ws, es, merge) && Fresh(ws[0]) && n < |ws| && !SaysLanded(ws[0], i) && SaysLanded(ws[n], i)
    requires forall k :: 0 <= k < |es| ==> Honest(ws[k], es[k]) && Disciplined(ws[k], es[k])
    ensures exists m: nat, t: nat :: m < n && MovesTo(ws, es, m, i, t) && Holds(ws[n], t) && Own(ws[m], i, CommitId(t)) && Clean(ws[m], t)
  {
    MergedIsInTrunk(ws, es, merge, n, i);
    hide IsRun, Honest, Disciplined, Fresh, IsAncestor, SaysLanded, Orderly, MovesTo, Holds;
    var m: nat, t: nat :| m < n && MovesTo(ws, es, m, i, t) && Holds(ws[n], t);
    OrderHolds(ws, es, merge, m);
    MoverIsOwn(ws, es, m, i, t);
  }
}
