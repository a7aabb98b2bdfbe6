/** Where a landing comes to, case by case, from what the repository looked like when it began. */
module LandingEnds {
  import opened Common
  import opened CommitGraph
  import opened State
  import opened Landing

  /** The move ends merged, with `main` at the target, exactly when that is a fast-forward; otherwise it
      parks and touches nothing. */
  lemma MoveEndsExactly(l: Local, t: nat, merge: Merge, luck: Luck)
    requires Sound(l, Move(t))
    ensures var (r, end) := Try(l, Move(t), merge, luck);
      && r.repo.graph == l.repo.graph && (luck.None? ==> !end.Fault?)
      && (!end.Fault? ==> end.Done?)
      && (!end.Fault? && IsAncestor(l.repo.graph, l.repo.main, t) ==>
            r.place == MERGED && r.repo.main == t && Report(r.place, end) == OutMerged)
      && (!end.Fault? && !IsAncestor(l.repo.graph, l.repo.main, t) ==>
            r == Local(l.repo, AWAITING_HUMAN) && Report(r.place, end) == OutAwaitingHuman)
  {
    TryOn(l, Move(t), merge, luck);
    var (m, next) := Step(l, Move(t), merge);
    hide Try, Step;
    if luck != Some(0) {
      if IsAncestor(l.repo.graph, l.repo.main, t) {
        MoveStepForward(l, t, merge);
        MovedEnds(m, merge, Left(luck));
      } else {
        MoveStepRefused(l, t, merge);
        Stops(m, Done, merge, Left(luck));
      }
    }
  }

  lemma MoveStepForward(l: Local, t: nat, merge: Merge)
    requires Sound(l, Move(t)) && IsAncestor(l.repo.graph, l.repo.main, t)
    ensures var (m, next) := Step(l, Move(t), merge);
      next == Moved && m.repo.main == t && m.repo.graph == l.repo.graph
  {
  }

  lemma MoveStepRefused(l: Local, t: nat, merge: Merge)
    requires Sound(l, Move(t)) && !IsAncestor(l.repo.graph, l.repo.main, t)
    ensures Step(l, Move(t), merge) == (l.(place := AWAITING_HUMAN), Done)
  {
  }

  lemma MovedEnds(l: Local, merge: Merge, luck: Luck)
    requires Sound(l, Moved)
    ensures var (r, end) := Try(l, Moved, merge, luck);
      r.repo == l.repo && (luck.None? ==> !end.Fault?) && (!end.Fault? ==> end.Done? && r.place == MERGED)
  {
    TryOn(l, Moved, merge, luck);
    if luck != Some(0) { FinishEnds(Step(l, Moved, merge).0, merge, Left(luck)); }
    hide Try, Valid;
  }

  lemma FinishEnds(l: Local, merge: Merge, luck: Luck)
    requires Sound(l, Finish)
    ensures var (r, end) := Try(l, Finish, merge, luck);
      r.repo == l.repo && (luck.None? ==> !end.Fault?) && (!end.Fault? ==> end.Done? && r.place == MERGED)
  {
    TryOn(l, Finish, merge, luck);
    if luck != Some(0) { Stops(Step(l, Finish, merge).0, Done, merge, Left(luck)); }
    hide Try, Valid;
  }

  /** What comes after the target is known: a conflicted one waits for a Merger, a clean one is moved
      to. */
  predicate EndsFrom(repo: Repo, t: nat, r: Local, end: Pc)
    requires repo.main < |repo.graph| && t < |repo.graph|
  {
    if repo.graph[t].conflict then
      r == Local(repo, LandingAt(Merging)) && end == Conflicted(t) && Report(r.place, end) == RebaseConflict(t)
    else if IsAncestor(repo.graph, repo.main, t) then
      r.place == MERGED && r.repo.main == t && r.repo.graph == repo.graph && end.Done? && Report(r.place, end) == OutMerged
    else
      r == Local(repo, AWAITING_HUMAN) && end.Done? && Report(r.place, end) == OutAwaitingHuman
  }

  lemma RebasedEndsExactly(l: Local, t: nat, merge: Merge, luck: Luck)
    requires Sound(l, Rebased(t))
    ensures var (r, end) := Try(l, Rebased(t), merge, luck);
      (luck.None? ==> !end.Fault?) && (!end.Fault? ==> EndsFrom(l.repo, t, r, end))
  {
    hide Try, IsAncestor;
    TryOn(l, Rebased(t), merge, luck);
    if luck != Some(0) {
      var (m, next) := Step(l, Rebased(t), merge);
      if l.repo.graph[t].conflict {
        Stops(m, next, merge, Left(luck));
      } else {
        MoveEndsExactly(m, t, merge, Left(luck));
      }
    }
  }

  /** A whole landing: a change that does not resolve is an error; one that stands on `main` is the
      target itself; any other is rebased onto `main` and its copy is the target. */
  lemma LandingEndsExactly(l: Local, rev: Revset, merge: Merge, luck: Luck)
    requires Valid(l.repo)
    ensures var (r, end) := Try(l, Entry(rev, RebaseStarted), merge, luck);
      match Resolve(l.repo, rev)
      case None => end.Fault? && r.repo == l.repo
      case Some(c) =>
        && (luck.None? ==> !end.Fault?)
        && (!end.Fault? ==>
             if IsAncestor(l.repo.graph, l.repo.main, c) then EndsFrom(l.repo, c, r, end)
             else
               var q := Rebase(l.repo, c, l.repo.main, merge);
               q.main < |q.graph| && EndsFrom(q, |l.repo.graph|, r, end))
  {
    hide Try, Rebase, EndsFrom;
    var b := l.(place := LandingAt(RebaseStarted));
    TryOn(l, Begin(rev), merge, luck);
    assert Step(l, Begin(rev), merge) == (b, Check(rev));
    if luck != Some(0) { CheckEnds(b, rev, merge, Left(luck)); }
  }

  lemma CheckEnds(l: Local, rev: Revset, merge: Merge, luck: Luck)
    requires Sound(l, Check(rev))
    ensures var (r, end) := Try(l, Check(rev), merge, luck);
      match Resolve(l.repo, rev)
      case None => end.Fault? && r.repo == l.repo
      case Some(c) =>
        && (luck.None? ==> !end.Fault?)
        && (!end.Fault? ==>
             if IsAncestor(l.repo.graph, l.repo.main, c) then EndsFrom(l.repo, c, r, end)
             else
               var q := Rebase(l.repo, c, l.repo.main, merge);
               q.main < |q.graph| && EndsFrom(q, |l.repo.graph|, r, end))
  {
    hide Try, Rebase, EndsFrom, IsAncestor;
    TryOn(l, Check(rev), merge, luck);
    var c := Resolve(l.repo, rev);
    if luck != Some(0) {
      if c.None? {
        Stops(l, Fault, merge, Left(luck));
      } else if IsAncestor(l.repo.graph, l.repo.main, c.value) {
        assert Step(l, Skip(rev), merge) == (l, Rebased(c.value));
        TryOn(l, Skip(rev), merge, Left(luck));
        if Left(luck) != Some(0) { RebasedEndsExactly(l, c.value, merge, Left(Left(luck))); }
      } else {
        RebaseEnds(l, rev, c.value, merge, Left(luck));
      }
    }
  }

  lemma RebaseEnds(l: Local, rev: Revset, c: nat, merge: Merge, luck: Luck)
    requires Sound(l, DoRebase(rev)) && Resolve(l.repo, rev) == Some(c)
    ensures var (r, end) := Try(l, DoRebase(rev), merge, luck);
      var q := Rebase(l.repo, c, l.repo.main, merge);
      (luck.None? ==> !end.Fault?)
      && (!end.Fault? ==> q.main < |q.graph| && |l.repo.graph| < |q.graph| && EndsFrom(q, |l.repo.graph|, r, end))
  {
    hide Try, Rebase, EndsFrom, IsAncestor, Names, Step, Closed, Acyclic, Resolve;
    TryOn(l, DoRebase(rev), merge, luck);
    DoRebaseStep(l, rev, c, merge);
    var m := l.(repo := Rebase(l.repo, c, l.repo.main, merge));
    if luck != Some(0) { RebasedEndsExactly(m, |l.repo.graph|, merge, Left(luck)); }
  }

  lemma DoRebaseStep(l: Local, rev: Revset, c: nat, merge: Merge)
    requires Sound(l, DoRebase(rev)) && Resolve(l.repo, rev) == Some(c)
    ensures c < |l.repo.graph| && l.repo.main < |l.repo.graph|
    ensures var q := Rebase(l.repo, c, l.repo.main, merge);
      && Step(l, DoRebase(rev), merge) == (l.(repo := q), Rebased(|l.repo.graph|))
      && Sound(l.(repo := q), Rebased(|l.repo.graph|)) && q.main < |q.graph|
  {
    RebaseIsValid(l.repo, c, l.repo.main, merge);
    hide Rebase, IsAncestor, Names, Resolve, Acyclic;
  }

  /** A resume past the rebase moves to whatever the revset names, conflicted or not. */
  lemma BookmarkEndsExactly(l: Local, rev: Revset, merge: Merge, luck: Luck)
    requires Valid(l.repo)
    ensures var (r, end) := Try(l, Entry(rev, RebaseDoneBookmarkPending), merge, luck);
      match Resolve(l.repo, rev)
      case None => end.Fault? && r.repo == l.repo
      case Some(t) =>
        && (luck.None? ==> !end.Fault?)
        && (!end.Fault? && IsAncestor(l.repo.graph, l.repo.main, t) ==>
              end.Done? && r.place == MERGED && r.repo.main == t && r.repo.graph == l.repo.graph)
        && (!end.Fault? && !IsAncestor(l.repo.graph, l.repo.main, t) ==> end.Done? && r == Local(l.repo, AWAITING_HUMAN))
  {
    hide Try, IsAncestor;
    TryOn(l, Bookmark(rev), merge, luck);
    if luck != Some(0) {
      match Resolve(l.repo, rev)
      case None => Stops(l, Fault, merge, Left(luck));
      case Some(t) => MoveEndsExactly(l, t, merge, Left(luck));
    }
  }

  /** The other substates: a moved bookmark only has to be recorded, a crash under a Merger parks, and
      nothing else is resumed. */
  lemma OtherResumesEndExactly(l: Local, rev: Revset, from: Substate, merge: Merge, luck: Luck)
    requires Valid(l.repo) && !from.RebaseStarted? && !from.RebaseDoneBookmarkPending?
    ensures var (r, end) := Try(l, Entry(rev, from), merge, luck);
      && r.repo == l.repo && (end.Fault? ==> r == l)
      && (from.BookmarkMovedComplete? ==> if end.Fault? then luck.Some? else r.place == MERGED)
      && (from.Merging? ==> if end.Fault? then luck.Some? else r.place == AWAITING_HUMAN)
      && (!from.BookmarkMovedComplete? && !from.Merging? ==> end.Fault?)
  {
    hide Closed, IsAncestor;
    var pc := Entry(rev, from);
    if pc.Fault? {
      Stops(l, pc, merge, luck);
    } else {
      TryOn(l, pc, merge, luck);
      if luck != Some(0) { Stops(Step(l, pc, merge).0, Done, merge, Left(luck)); }
    }
  }
}
