/** Landing one issue while the process keeps crashing: after each crash the in-memory position is
    lost and the machine re-enters at the persisted substate with the same revset. */
module CrashSchedules {
  import opened Common
  import opened CommitGraph
  import opened State
  import opened Landing

  /** Where a restart re-enters: a converged issue starts over, a landing substate resumes, a
      terminal issue is left alone. */
  function Reenter(place: Place, rev: Revset): Pc {
    match place
    case Place(Landing, Token(sub)) => Entry(rev, sub)
    case Place(Converged, Null) => Begin(rev)
    case Place(p, _) => if IsTerminal(p) then Done else Fault
  }

  /** `k` operations, or fewer if the code returns first. */
  ghost function Steps(l: Local, pc: Pc, merge: Merge, k: nat): (r: (Local, Pc))
    requires Sound(l, pc)
    ensures Sound(r.0, r.1)
    decreases k
  {
    if k == 0 || Stopped(pc) then (l, pc)
    else
      StepIsSound(l, pc, merge);
      Steps(Step(l, pc, merge).0, Step(l, pc, merge).1, merge, k - 1)
  }

  /** Crash after `schedule[0]` operations, restart, crash after `schedule[1]` more, and so on;
      the last restart runs to the end. */
  ghost function Crashing(l: Local, pc: Pc, rev: Revset, merge: Merge, schedule: seq<nat>): (r: Local)
    requires Sound(l, pc)
    decreases |schedule|
  {
    if schedule == [] then Run(l, pc, merge).0
    else
      var l' := Steps(l, pc, merge, schedule[0]).0;
      Crashing(l', Reenter(l'.place, rev), rev, merge, schedule[1..])
  }

  /** A position whose uninterrupted completion a crash does not change. */
  ghost predicate Recoverable(l: Local, pc: Pc, rev: Revset, merge: Merge)
    requires Sound(l, pc)
  {
    Run(l, pc, merge).0 == Run(l, Reenter(l.place, rev), merge).0
  }

  /** The change resolves, and landing it neither conflicts nor rewrites a commit that the
      revset would then miss. */
  ghost predicate Stable(l: Local, rev: Revset, merge: Merge)
    requires Valid(l.repo)
  {
    match Resolve(l.repo, rev)
    case None => true
    case Some(c) =>
      if IsAncestor(l.repo.graph, l.repo.main, c) then !l.repo.graph[c].conflict
      else rev.ChangeId? && !IsAncestor(l.repo.graph, c, l.repo.main) && !merge(c, [l.repo.main])
  }

  /** What every reachable position of a stable landing satisfies. */
  ghost predicate OnTrack(l: Local, pc: Pc, rev: Revset, merge: Merge) {
    && Sound(l, pc)
    && match pc
       case Begin(r) => r == rev && Stable(l, rev, merge) && (l.place == CONVERGED || l.place == LandingAt(RebaseStarted))
       case Check(r) => r == rev && Stable(l, rev, merge) && l.place == LandingAt(RebaseStarted)
       case Skip(r) =>
         && r == rev && l.place == LandingAt(RebaseStarted) && Stable(l, rev, merge)
         && Resolve(l.repo, rev).Some? && IsAncestor(l.repo.graph, l.repo.main, Resolve(l.repo, rev).value)
       case DoRebase(r) =>
         && r == rev && l.place == LandingAt(RebaseStarted) && Stable(l, rev, merge)
         && Resolve(l.repo, rev).Some? && !IsAncestor(l.repo.graph, l.repo.main, Resolve(l.repo, rev).value)
       case Rebased(t) => l.place == LandingAt(RebaseStarted) && Rests(l, rev, t)
       case Bookmark(r) => r == rev && l.place == LandingAt(RebaseDoneBookmarkPending)
                           && Resolve(l.repo, rev).Some? && Rests(l, rev, Resolve(l.repo, rev).value)
       case Move(t) => l.place == LandingAt(RebaseDoneBookmarkPending) && Rests(l, rev, t)
       case Moved => l.place == LandingAt(RebaseDoneBookmarkPending) && Rests(l, rev, l.repo.main)
       case Finish => l.place == LandingAt(BookmarkMovedComplete) && Resolve(l.repo, rev) == Some(l.repo.main)
       case Done => l.place == MERGED && Resolve(l.repo, rev) == Some(l.repo.main)
       case Fault => Resolve(l.repo, rev).None? && l.place == LandingAt(RebaseStarted)
       case _ => false
  }

  /** The revset names the clean commit `t`, and `t` stands on `main`. */
  ghost predicate Rests(l: Local, rev: Revset, t: nat)
    requires Valid(l.repo)
  {
    && t < |l.repo.graph| && !l.repo.graph[t].conflict
    && Resolve(l.repo, rev) == Some(t) && IsAncestor(l.repo.graph, l.repo.main, t)
  }

  lemma OnTrackStep(l: Local, pc: Pc, rev: Revset, merge: Merge)
    requires OnTrack(l, pc, rev, merge)
    ensures OnTrack(Step(l, pc, merge).0, Step(l, pc, merge).1, rev, merge)
  {
    StepIsSound(l, pc, merge);
    match pc
    case DoRebase(r) =>
      var c := Resolve(l.repo, rev).value;
      RebaseMovesChange(l.repo, c, l.repo.main, merge);
      assert Rests(Step(l, pc, merge).0, rev, |l.repo.graph|) by {
        var r' := Step(l, pc, merge).0.repo;
        RebaseLeavesMain(l.repo, c, l.repo.main, merge);
        assert r'.graph[|l.repo.graph|].parents[0] == r'.main;
      }
    case Move(t) => MoveMainKeepsNames(l.repo, t, rev);
    case Rebased(t) =>
    case Check(r) =>
    case Skip(r) =>
    case Bookmark(r) =>
    case _ =>
  }

  lemma RestartAtTop(l: Local, pc: Pc, rev: Revset, merge: Merge)
    requires OnTrack(l, pc, rev, merge) && l.place == LandingAt(RebaseStarted)
    ensures Run(l, pc, merge).0 == Run(l, Begin(rev), merge).0
  {
    Unroll(l, Begin(rev), merge);
    assert l.(place := LandingAt(RebaseStarted)) == l;
    if !pc.Begin? && !pc.Check? {
      Unroll(l, Check(rev), merge);
      if pc.Rebased? { Unroll(l, Skip(rev), merge); }
    }
  }

  lemma RestartAtBookmark(l: Local, pc: Pc, rev: Revset, merge: Merge)
    requires OnTrack(l, pc, rev, merge) && l.place == LandingAt(RebaseDoneBookmarkPending)
    ensures Run(l, pc, merge).0 == Run(l, Bookmark(rev), merge).0
  {
    if !pc.Bookmark? {
      Unroll(l, Bookmark(rev), merge);
      if pc.Moved? { Unroll(l, Move(l.repo.main), merge); }
    }
  }

  /** Nothing is in flight that the persisted place does not describe: completing from memory
      and completing after a crash come to the same end. */
  lemma OnTrackRecovers(l: Local, pc: Pc, rev: Revset, merge: Merge)
    requires OnTrack(l, pc, rev, merge)
    ensures Recoverable(l, pc, rev, merge)
  {
    hide Run, Stable, Rests;
    if l.place == LandingAt(RebaseStarted) {
      RestartAtTop(l, pc, rev, merge);
    } else if l.place == LandingAt(RebaseDoneBookmarkPending) {
      RestartAtBookmark(l, pc, rev, merge);
    } else if pc.Done? {
      RunStopped(l, Done, merge);
    }
  }

  lemma OnTrackReenters(l: Local, pc: Pc, rev: Revset, merge: Merge)
    requires OnTrack(l, pc, rev, merge)
    ensures OnTrack(l, Reenter(l.place, rev), rev, merge)
  {
  }

  lemma StepsUnroll(l: Local, pc: Pc, merge: Merge, k: nat)
    requires Sound(l, pc) && !Stopped(pc) && k > 0
    ensures var (l', pc') := Step(l, pc, merge);
      Sound(l', pc') && Steps(l, pc, merge, k) == Steps(l', pc', merge, k - 1)
      && Run(l, pc, merge) == Run(l', pc', merge)
  {
    Unroll(l, pc, merge);
  }

  lemma NoMoreSteps(l: Local, pc: Pc, merge: Merge)
    requires Sound(l, pc)
    ensures Steps(l, pc, merge, 0) == (l, pc)
  {
  }

  lemma StepsStopped(l: Local, pc: Pc, merge: Merge, k: nat)
    requires Sound(l, pc) && Stopped(pc)
    ensures Steps(l, pc, merge, k) == (l, pc)
  {
  }

  /** A sound position is one an operation can start from. */
  lemma StepIsSafe(l: Local, pc: Pc)
    requires Sound(l, pc)
    ensures Closed(l.repo.graph, l.repo.visible) && l.repo.main in l.repo.visible
    ensures (pc.Rebased? || pc.Move? || pc.Conflicted?) ==> pc.target < |l.repo.graph|
  {
  }

  /** Stopping on the way does not change where the landing would come to. */
  lemma {:induction false} StepsKeepRun(l: Local, pc: Pc, merge: Merge, k: nat)
    requires Sound(l, pc)
    ensures var r := Steps(l, pc, merge, k); Run(r.0, r.1, merge) == Run(l, pc, merge)
    decreases k
  {
    hide Steps, Run, Step, Sound, Acyclic;
    if k == 0 {
      NoMoreSteps(l, pc, merge);
    } else if Stopped(pc) {
      StepsStopped(l, pc, merge, k);
    } else {
      StepsUnroll(l, pc, merge, k);
      StepIsSafe(l, pc);
      StepsKeepRun(Step(l, pc, merge).0, Step(l, pc, merge).1, merge, k - 1);
    }
  }

  lemma {:induction false} StaysOnTrack(l: Local, pc: Pc, rev: Revset, merge: Merge, k: nat)
    requires OnTrack(l, pc, rev, merge)
    ensures var r := Steps(l, pc, merge, k); OnTrack(r.0, r.1, rev, merge)
    decreases k
  {
    if k > 0 && !Stopped(pc) {
      OnTrackStep(l, pc, rev, merge);
      StaysOnTrack(Step(l, pc, merge).0, Step(l, pc, merge).1, rev, merge, k - 1);
    }
    hide OnTrack, Step;
  }

  lemma OnTrackSteps(l: Local, pc: Pc, rev: Revset, merge: Merge, k: nat)
    requires OnTrack(l, pc, rev, merge)
    ensures var r := Steps(l, pc, merge, k);
      OnTrack(r.0, r.1, rev, merge) && Run(r.0, r.1, merge).0 == Run(l, pc, merge).0
  {
    StepsKeepRun(l, pc, merge, k);
    StaysOnTrack(l, pc, rev, merge, k);
    hide Steps, Run;
  }

  lemma {:induction false} StableSurvives(l: Local, pc: Pc, rev: Revset, merge: Merge, schedule: seq<nat>)
    requires OnTrack(l, pc, rev, merge)
    ensures Crashing(l, pc, rev, merge, schedule) == Run(l, pc, merge).0
    decreases |schedule|
  {
    if schedule != [] {
      OnTrackSteps(l, pc, rev, merge, schedule[0]);
      var (l', pc') := Steps(l, pc, merge, schedule[0]);
      OnTrackRecovers(l', pc', rev, merge);
      OnTrackReenters(l', pc', rev, merge);
      StableSurvives(l', Reenter(l'.place, rev), rev, merge, schedule[1..]);
    }
  }

  lemma {:induction false} OnTrackMerges(l: Local, pc: Pc, rev: Revset, merge: Merge)
    requires OnTrack(l, pc, rev, merge) && Resolve(l.repo, rev).Some?
    ensures var r := Run(l, pc, merge).0;
      r.place == MERGED && Resolve(r.repo, rev) == Some(r.repo.main)
    decreases Rank(pc)
  {
    if !Stopped(pc) {
      OnTrackStep(l, pc, rev, merge);
      StepTerminates(l, pc, merge);
      OnTrackMerges(Step(l, pc, merge).0, Step(l, pc, merge).1, rev, merge);
    }
  }

  // --- unstable landings ----------------------------------------------------

  lemma {:induction false} EnoughSteps(l: Local, pc: Pc, merge: Merge, k: nat)
    requires Sound(l, pc) && Rank(pc) <= k
    ensures Steps(l, pc, merge, k) == Run(l, pc, merge)
    decreases k
  {
    if !Stopped(pc) {
      Unroll(l, pc, merge);
      StepTerminates(l, pc, merge);
      EnoughSteps(Step(l, pc, merge).0, Step(l, pc, merge).1, merge, k - 1);
    }
  }

  /** Once the rebase is behind it the machine rewrites nothing and ends in one of three places. */
  lemma {:induction false} PastRebase(l: Local, pc: Pc, merge: Merge)
    requires Sound(l, pc) && (pc.Rebased? || pc.Move? || pc.Moved? || pc.Finish?)
    ensures var r := Run(l, pc, merge).0;
      r.repo.graph == l.repo.graph && r.place in {MERGED, AWAITING_HUMAN, LandingAt(Merging)}
    decreases Rank(pc)
  {
    Unroll(l, pc, merge);
    StepTerminates(l, pc, merge);
    var (l', pc') := Step(l, pc, merge);
    if !Stopped(pc') { PastRebase(l', pc', merge); }
  }

  /** What the rebase operation leaves. */
  function AfterRebasing(l: Local, c: nat, merge: Merge): (m: Local)
    requires Valid(l.repo) && c < |l.repo.graph|
    ensures Sound(m, Rebased(|l.repo.graph|)) && m.repo.graph[|l.repo.graph|].conflict == merge(c, [l.repo.main])
  {
    RebaseIsValid(l.repo, c, l.repo.main, merge);
    l.(repo := Rebase(l.repo, c, l.repo.main, merge))
  }

  lemma RebaseStep(l: Local, rev: Revset, c: nat, merge: Merge)
    requires Valid(l.repo) && Resolve(l.repo, rev) == Some(c)
    ensures c < |l.repo.graph| && Step(l, DoRebase(rev), merge) == (AfterRebasing(l, c, merge), Rebased(|l.repo.graph|))
  {
    hide Rebase, Resolve;
  }

  lemma CheckStep(l: Local, rev: Revset, merge: Merge)
    requires Sound(l, Check(rev))
    ensures Step(l, Check(rev), merge).0 == l
    ensures Step(l, Check(rev), merge).1 == match Resolve(l.repo, rev)
      case None => Fault
      case Some(c) => if IsAncestor(l.repo.graph, l.repo.main, c) then Skip(rev) else DoRebase(rev)
  {
    hide Valid, IsAncestor, Resolve;
  }

  /** A failing operation leaves exactly what a crash before it would leave; the difference is only that
      the process lives to report it. */
  lemma {:induction false} FailureIsACrash(l: Local, pc: Pc, merge: Merge, k: nat)
    requires Sound(l, pc)
    ensures var (r, at) := Steps(l, pc, merge, k);
      Try(l, pc, merge, Some(k)) == (r, if Stopped(at) then at else Fault)
    decreases k
  {
    hide Step, Steps, Try, Run;
    if Stopped(pc) {
      Stops(l, pc, merge, Some(k));
      StepsStopped(l, pc, merge, k);
    } else {
      Goes(l, pc, merge, Some(k));
      if k == 0 {
        NoMoreSteps(l, pc, merge);
      } else {
        StepsUnroll(l, pc, merge, k);
        FailureIsACrash(Step(l, pc, merge).0, Step(l, pc, merge).1, merge, k - 1);
      }
    }
  }

  /** The first three operations of a landing that has to rebase. */
  lemma FirstThreeSteps(l: Local, rev: Revset, merge: Merge, c: nat)
    requires Valid(l.repo) && Resolve(l.repo, rev) == Some(c) && !IsAncestor(l.repo.graph, l.repo.main, c)
    ensures Sound(Local(Rebase(l.repo, c, l.repo.main, merge), LandingAt(RebaseStarted)), Rebased(|l.repo.graph|))
    ensures Steps(l, Begin(rev), merge, 3)
         == (Local(Rebase(l.repo, c, l.repo.main, merge), LandingAt(RebaseStarted)), Rebased(|l.repo.graph|))
    ensures Run(l, Begin(rev), merge)
         == Run(Local(Rebase(l.repo, c, l.repo.main, merge), LandingAt(RebaseStarted)), Rebased(|l.repo.graph|), merge)
  {
    var b := l.(place := LandingAt(RebaseStarted));
    assert Step(l, Begin(rev), merge) == (b, Check(rev));
    var d := AfterRebasing(b, c, merge);
    RebaseStep(b, rev, c, merge);
    assert d == Local(Rebase(l.repo, c, l.repo.main, merge), LandingAt(RebaseStarted));
    hide Step, Steps, Run, Valid, Rebase, IsAncestor, Resolve, AfterRebasing;
    StepsUnroll(l, Begin(rev), merge, 3);
    CheckStep(b, rev, merge);
    StepsUnroll(b, Check(rev), merge, 2);
    StepsUnroll(b, DoRebase(rev), merge, 1);
    NoMoreSteps(d, Rebased(|l.repo.graph|), merge);
  }

  lemma CrashOnce(l: Local, rev: Revset, merge: Merge, k: nat)
    requires Valid(l.repo)
    ensures var l' := Steps(l, Begin(rev), merge, k).0;
      Crashing(l, Begin(rev), rev, merge, [k]) == Run(l', Reenter(l'.place, rev), merge).0
  {
    assert [k][1..] == [];
  }

  /** A conflict: the Merger's work is parked by the first restart. */
  lemma ConflictIsParked(l: Local, rev: Revset, merge: Merge, k: nat)
    requires Valid(l.repo) && Run(l, Begin(rev), merge).0.place == LandingAt(Merging)
    requires Rank(Begin(rev)) <= k
    ensures Crashing(l, Begin(rev), rev, merge, [k]) != Run(l, Begin(rev), merge).0
  {
    hide Run, Steps, Crashing;
    EnoughSteps(l, Begin(rev), merge, k);
    CrashOnce(l, rev, merge, k);
    ParkingParks(Run(l, Begin(rev), merge).0, rev, merge);
  }

  lemma ParkingParks(l: Local, rev: Revset, merge: Merge)
    requires Valid(l.repo) && l.place == LandingAt(Merging)
    ensures Run(l, Reenter(l.place, rev), merge).0.place == AWAITING_HUMAN
  {
    Unroll(l, ParkMerging, merge);
  }

  /** How many operations a landing has carried out once its rebase has committed. */
  const UP_TO_REBASE: nat := 3

  /** A crash just after a rebase that the revset cannot see, or that split the change. */
  lemma CrashAfterRebase(l: Local, rev: Revset, merge: Merge, c: nat)
    requires Valid(l.repo) && Resolve(l.repo, rev) == Some(c) && !IsAncestor(l.repo.graph, l.repo.main, c)
    requires rev.CommitId? || IsAncestor(l.repo.graph, c, l.repo.main)
    ensures Crashing(l, Begin(rev), rev, merge, [UP_TO_REBASE]) != Run(l, Begin(rev), merge).0
  {
    hide Run, Steps, Crashing, Rebase;
    FirstThreeSteps(l, rev, merge, c);
    CrashOnce(l, rev, merge, UP_TO_REBASE);
    var l3 := Local(Rebase(l.repo, c, l.repo.main, merge), LandingAt(RebaseStarted));
    PastRebase(l3, Rebased(|l.repo.graph|), merge);
    Unroll(l3, Begin(rev), merge);
    if rev.CommitId? {
      RebasesAgain(l, rev, merge, c);
    } else {
      RebaseSplitsChange(l.repo, c, merge);
      Unroll(l3, Check(rev), merge);
      RunStopped(l3, Fault, merge);
    }
  }

  /** The rewritten trunk is not in the history of the commit that was rebased. */
  lemma MainLeavesSource(r: Repo, c: nat, merge: Merge)
    requires Valid(r) && c < |r.graph| && !IsAncestor(r.graph, r.main, c)
    ensures !IsAncestor(Rebase(r, c, r.main, merge).graph, Rebase(r, c, r.main, merge).main, c)
  {
    var q := Rebase(r, c, r.main, merge);
    if IsAncestor(q.graph, q.main, c) {
      AncestorIsOlder(q.graph, q.main, c);
      AncestryStable(r.graph, q.graph, q.main, c);
    }
  }

  /** With a commit id the restart does not see the rewritten commit and rebases once more. */
  lemma RebasesAgain(l: Local, rev: Revset, merge: Merge, c: nat)
    requires Valid(l.repo) && rev == CommitId(c) && c < |l.repo.graph|
    requires !IsAncestor(l.repo.graph, l.repo.main, c)
    ensures var l3 := Local(Rebase(l.repo, c, l.repo.main, merge), LandingAt(RebaseStarted));
      Sound(l3, Check(rev)) && |l3.repo.graph| < |Run(l3, Check(rev), merge).0.repo.graph|
  {
    RebaseIsValid(l.repo, c, l.repo.main, merge);
    MainLeavesSource(l.repo, c, merge);
    AppendsOne(Local(Rebase(l.repo, c, l.repo.main, merge), LandingAt(RebaseStarted)), rev, merge);
  }

  lemma AppendsOne(l: Local, rev: Revset, merge: Merge)
    requires Valid(l.repo) && rev.CommitId? && rev.id < |l.repo.graph|
    requires !IsAncestor(l.repo.graph, l.repo.main, rev.id)
    ensures |l.repo.graph| < |Run(l, Check(rev), merge).0.repo.graph|
  {
    hide Run;
    assert Names(l.repo, rev, rev.id);
    assert Resolve(l.repo, rev) == Some(rev.id);
    Unroll(l, Check(rev), merge);
    Unroll(l, DoRebase(rev), merge);
    var (l', pc') := Step(l, DoRebase(rev), merge);
    RunAdvancesMain(l', pc', merge);
  }

  /** Rebasing a commit that `main` already stands on leaves its change id naming two commits. */
  lemma RebaseSplitsChange(r: Repo, c: nat, merge: Merge)
    requires Valid(r) && c < |r.graph| && IsAncestor(r.graph, c, r.main)
    ensures Resolve(Rebase(r, c, r.main, merge), ChangeId(r.graph[c].change)).None?
  {
    var q := Rebase(r, c, r.main, merge);
    assert q.graph[|r.graph|].parents[0] == r.main;
    assert r.main in q.visible;
    AncestryStable(r.graph, q.graph, c, r.main);
    ClosedHoldsAncestors(q.graph, q.visible, c, r.main);
  }

  /** Landing is independent of when it crashes iff the change does not resolve at all, or it
      lands clean and the revset still finds it after the rewrite. */
  lemma CrashIndependence(l: Local, rev: Revset, merge: Merge)
    requires Valid(l.repo) && l.place == CONVERGED
    ensures Stable(l, rev, merge)
      <==> forall schedule :: Crashing(l, Begin(rev), rev, merge, schedule) == Run(l, Begin(rev), merge).0
  {
    if Stable(l, rev, merge) {
      forall schedule
        ensures Crashing(l, Begin(rev), rev, merge, schedule) == Run(l, Begin(rev), merge).0
      {
        StableSurvives(l, Begin(rev), rev, merge, schedule);
      }
    } else {
      Unstable(l, rev, merge);
    }
  }

  lemma Unstable(l: Local, rev: Revset, merge: Merge)
    requires Valid(l.repo) && !Stable(l, rev, merge)
    ensures exists schedule :: Crashing(l, Begin(rev), rev, merge, schedule) != Run(l, Begin(rev), merge).0
  {
    var c := Resolve(l.repo, rev).value;
    if !IsAncestor(l.repo.graph, l.repo.main, c) && (rev.CommitId? || IsAncestor(l.repo.graph, c, l.repo.main)) {
      CrashAfterRebase(l, rev, merge, c);
    } else {
      ConflictedRun(l, rev, merge, c);
      ConflictIsParked(l, rev, merge, Rank(Begin(rev)));
    }
  }

  lemma ConflictedRun(l: Local, rev: Revset, merge: Merge, c: nat)
    requires Valid(l.repo) && Resolve(l.repo, rev) == Some(c)
    requires if IsAncestor(l.repo.graph, l.repo.main, c) then l.repo.graph[c].conflict else merge(c, [l.repo.main])
    ensures Run(l, Begin(rev), merge).0.place == LandingAt(Merging)
  {
    hide Run, Steps, Rebase;
    if IsAncestor(l.repo.graph, l.repo.main, c) {
      var b := l.(place := LandingAt(RebaseStarted));
      Unroll(l, Begin(rev), merge);
      Unroll(b, Check(rev), merge);
      Unroll(b, Skip(rev), merge);
      ConflictStops(b, c, merge);
    } else {
      FirstThreeSteps(l, rev, merge, c);
      ConflictStops(Local(Rebase(l.repo, c, l.repo.main, merge), LandingAt(RebaseStarted)), |l.repo.graph|, merge);
    }
  }

  lemma ConflictStops(l: Local, t: nat, merge: Merge)
    requires Sound(l, Rebased(t)) && l.repo.graph[t].conflict
    ensures Run(l, Rebased(t), merge) == (l.(place := LandingAt(Merging)), Conflicted(t))
  {
  }

  // --- which landings conflict ----------------------------------------------

  /** Landing the change conflicts: it stands on `main` and is itself conflicted, or putting it there
      conflicts. */
  predicate Conflicting(r: Repo, rev: Revset, merge: Merge)
    requires Closed(r.graph, r.visible) && r.main in r.visible
  {
    match Resolve(r, rev)
    case None => false
    case Some(c) => if IsAncestor(r.graph, r.main, c) then r.graph[c].conflict else merge(c, [r.main])
  }

  predicate AwaitsMerging(r: (Local, Pc)) {
    !r.1.Fault? && r.0.place == LandingAt(Merging)
  }

  lemma {:induction false} PastBookmark(l: Local, pc: Pc, merge: Merge, luck: Luck)
    requires Sound(l, pc) && (pc.Move? || pc.Moved? || pc.Finish?)
    ensures !AwaitsMerging(Try(l, pc, merge, luck))
    decreases Rank(pc)
  {
    TryOn(l, pc, merge, luck);
    StepTerminates(l, pc, merge);
    hide Try;
    if luck != Some(0) {
      var (m, next) := Step(l, pc, merge);
      if next.Done? { Stops(m, next, merge, Left(luck)); } else { PastBookmark(m, next, merge, Left(luck)); }
    }
  }

  lemma RebasedAwaits(l: Local, t: nat, merge: Merge, luck: Luck)
    requires Sound(l, Rebased(t))
    ensures AwaitsMerging(Try(l, Rebased(t), merge, luck)) <==> l.repo.graph[t].conflict && luck != Some(0)
  {
    TryOn(l, Rebased(t), merge, luck);
    hide Try;
    if luck != Some(0) {
      var (m, next) := Step(l, Rebased(t), merge);
      if next.Move? { PastBookmark(m, next, merge, Left(luck)); } else { Stops(m, next, merge, Left(luck)); }
    }
  }

  lemma SkipStep(l: Local, rev: Revset, merge: Merge, c: nat)
    requires Sound(l, Skip(rev)) && Resolve(l.repo, rev) == Some(c)
    ensures Step(l, Skip(rev), merge) == (l, Rebased(c)) && Sound(l, Rebased(c))
  {
    hide Valid;
  }

  lemma AwaitsOn(l: Local, pc: Pc, merge: Merge, luck: Luck)
    requires Sound(l, pc) && !Stopped(pc)
    ensures luck == Some(0) ==> !AwaitsMerging(Try(l, pc, merge, luck))
    ensures luck != Some(0) ==>
      var (m, next) := Step(l, pc, merge);
      Sound(m, next) && (AwaitsMerging(Try(l, pc, merge, luck)) <==> AwaitsMerging(Try(m, next, merge, Left(luck))))
  {
    hide Try, Step, Valid, AwaitsMerging;
    TryOn(l, pc, merge, luck);
    FaultAwaitsNothing(l);
  }

  lemma SkipOn(l: Local, rev: Revset, merge: Merge, luck: Luck, c: nat)
    requires Sound(l, Skip(rev)) && Resolve(l.repo, rev) == Some(c)
    ensures Sound(l, Rebased(c))
    ensures AwaitsMerging(Try(l, Skip(rev), merge, luck))
      <==> luck != Some(0) && AwaitsMerging(Try(l, Rebased(c), merge, Left(luck)))
  {
    hide Try, AwaitsMerging, Step, Valid, Resolve, Closed, IsAncestor, Names, Acyclic;
    AwaitsOn(l, Skip(rev), merge, luck);
    SkipStep(l, rev, merge, c);
  }

  lemma LeftOver(luck: Luck)
    ensures luck != Some(0) && Left(luck) != Some(0) <==> luck.None? || luck.value >= 2
  {
  }

  lemma SkipAwaits(l: Local, rev: Revset, merge: Merge, luck: Luck, c: nat)
    requires Sound(l, Skip(rev)) && Resolve(l.repo, rev) == Some(c)
    ensures AwaitsMerging(Try(l, Skip(rev), merge, luck)) <==> l.repo.graph[c].conflict && (luck.None? || luck.value >= 2)
  {
    hide *;
    SkipOn(l, rev, merge, luck, c);
    LeftOver(luck);
    RebasedAwaits(l, c, merge, Left(luck));
  }

  lemma RebaseAwaits(l: Local, rev: Revset, merge: Merge, luck: Luck, c: nat)
    requires Sound(l, DoRebase(rev)) && Resolve(l.repo, rev) == Some(c)
    ensures AwaitsMerging(Try(l, DoRebase(rev), merge, luck)) <==> merge(c, [l.repo.main]) && (luck.None? || luck.value >= 2)
  {
    hide Try, AwaitsMerging, Step, Valid, AfterRebasing, Resolve, Closed, IsAncestor, Names, Acyclic;
    AwaitsOn(l, DoRebase(rev), merge, luck);
    RebaseStep(l, rev, c, merge);
    if luck != Some(0) { RebasedFrom(l, c, merge, Left(luck)); }
  }

  lemma RebasedFrom(l: Local, c: nat, merge: Merge, luck: Luck)
    requires Valid(l.repo) && c < |l.repo.graph|
    ensures AwaitsMerging(Try(AfterRebasing(l, c, merge), Rebased(|l.repo.graph|), merge, luck)) <==> merge(c, [l.repo.main]) && luck != Some(0)
  {
    hide Try, AwaitsMerging, Valid, AfterRebasing;
    RebasedAwaits(AfterRebasing(l, c, merge), |l.repo.graph|, merge, luck);
  }

  lemma CheckAwaits(l: Local, rev: Revset, merge: Merge, luck: Luck)
    requires Sound(l, Check(rev))
    ensures AwaitsMerging(Try(l, Check(rev), merge, luck))
      <==> Conflicting(l.repo, rev, merge) && (luck.None? || luck.value >= 3)
  {
    var c := Resolve(l.repo, rev);
    hide Try, Step, Valid, IsAncestor, AwaitsMerging, Resolve;
    AwaitsOn(l, Check(rev), merge, luck);
    CheckStep(l, rev, merge);
    FaultAwaitsNothing(l);
    if luck != Some(0) {
      if c.None? {
        Stops(l, Fault, merge, Left(luck));
      } else if IsAncestor(l.repo.graph, l.repo.main, c.value) {
        SkipAwaits(l, rev, merge, Left(luck), c.value);
      } else {
        RebaseAwaits(l, rev, merge, Left(luck), c.value);
      }
    }
  }

  lemma FaultAwaitsNothing(l: Local)
    ensures !AwaitsMerging((l, Fault))
  {
  }

  /** A landing ends waiting for a Merger exactly when its change conflicts and nothing fails before
      that is recorded, by its fourth operation; one resumed past its rebase never does. */
  lemma ConflictsExactly(l: Local, rev: Revset, merge: Merge, luck: Luck)
    requires Valid(l.repo)
    ensures AwaitsMerging(Try(l, Begin(rev), merge, luck))
      <==> Conflicting(l.repo, rev, merge) && (luck.None? || luck.value >= 4)
    ensures !AwaitsMerging(Try(l, Bookmark(rev), merge, luck))
  {
    var b := l.(place := LandingAt(RebaseStarted));
    BookmarkAwaits(l, rev, merge, luck);
    AwaitsOn(l, Begin(rev), merge, luck);
    BeginStep(l, rev, merge);
    hide Try, Step, Valid, AwaitsMerging, Conflicting;
    if luck != Some(0) { CheckAwaits(b, rev, merge, Left(luck)); }
  }

  lemma BeginStep(l: Local, rev: Revset, merge: Merge)
    requires Valid(l.repo)
    ensures Step(l, Begin(rev), merge) == (l.(place := LandingAt(RebaseStarted)), Check(rev))
  {
    hide Valid;
  }

  lemma BookmarkAwaits(l: Local, rev: Revset, merge: Merge, luck: Luck)
    requires Valid(l.repo)
    ensures !AwaitsMerging(Try(l, Bookmark(rev), merge, luck))
  {
    TryOn(l, Bookmark(rev), merge, luck);
    FaultAwaitsNothing(l);
    hide Try, AwaitsMerging;
    if luck != Some(0) {
      var c := Resolve(l.repo, rev);
      if c.None? { Stops(l, Fault, merge, Left(luck)); } else { PastBookmark(l, Move(c.value), merge, Left(luck)); }
    }
  }

  // --- every revset ---------------------------------------------------------

  /** With a commit id the machine always knows where it is: no position is a fault, and the
      persisted place tells which operations remain. */
  ghost predicate Placed(l: Local, pc: Pc, rev: Revset) {
    && Sound(l, pc) && rev.CommitId? && rev.id < |l.repo.graph|
    && match pc
       case Begin(r) => r == rev && (l.place == CONVERGED || l.place == LandingAt(RebaseStarted))
       case Check(r) => r == rev && l.place == LandingAt(RebaseStarted)
       case Skip(r) => r == rev && l.place == LandingAt(RebaseStarted)
       case DoRebase(r) => r == rev && l.place == LandingAt(RebaseStarted)
       case Rebased(_) => l.place == LandingAt(RebaseStarted)
       case Bookmark(r) => r == rev && l.place == LandingAt(RebaseDoneBookmarkPending)
       case Move(_) => l.place == LandingAt(RebaseDoneBookmarkPending)
       case Moved => l.place == LandingAt(RebaseDoneBookmarkPending)
       case Finish => l.place == LandingAt(BookmarkMovedComplete)
       case ParkMerging => l.place == LandingAt(Merging)
       case Done => l.place == MERGED || l.place == AWAITING_HUMAN
       case Conflicted(_) => l.place == LandingAt(Merging)
       case Fault => false
  }

  lemma PlacedStep(l: Local, pc: Pc, rev: Revset, merge: Merge)
    requires Placed(l, pc, rev)
    ensures var (l', pc') := Step(l, pc, merge);
      Placed(l', pc', rev) && IsAncestor(l'.repo.graph, l.repo.main, l'.repo.main) && l.repo.graph <= l'.repo.graph
  {
    hide Rebase, MoveMain, IsAncestor;
    StepIsSound(l, pc, merge);
    StepAdvancesMain(l, pc, merge);
    assert Names(l.repo, rev, rev.id);
  }

  lemma {:induction false} PlacedSteps(l: Local, pc: Pc, rev: Revset, merge: Merge, k: nat)
    requires Placed(l, pc, rev)
    ensures var (l', pc') := Steps(l, pc, merge, k);
      Placed(l', pc', rev) && Placed(l', Reenter(l'.place, rev), rev)
      && IsAncestor(l'.repo.graph, l.repo.main, l'.repo.main) && l.repo.graph <= l'.repo.graph
    decreases k
  {
    hide Step;
    if k > 0 && !Stopped(pc) {
      PlacedStep(l, pc, rev, merge);
      var (m, mc) := Step(l, pc, merge);
      PlacedSteps(m, mc, rev, merge, k - 1);
      var l' := Steps(m, mc, merge, k - 1).0;
      AncestryStable(m.repo.graph, l'.repo.graph, l.repo.main, m.repo.main);
      AncestorTransitive(l'.repo.graph, l.repo.main, m.repo.main, l'.repo.main);
    }
  }

  /** Landing by commit id under any crashes: it ends merged, parked for a human, or waiting for
      its Merger, and `main` is never rewound. */
  lemma {:induction false} CommitIdLandingRests(l: Local, pc: Pc, rev: Revset, merge: Merge, schedule: seq<nat>)
    requires Placed(l, pc, rev)
    ensures var r := Crashing(l, pc, rev, merge, schedule);
      && r.place in {MERGED, AWAITING_HUMAN, LandingAt(Merging)}
      && l.repo.graph <= r.repo.graph && r.repo.main < |r.repo.graph|
      && IsAncestor(r.repo.graph, l.repo.main, r.repo.main)
    decreases |schedule|
  {
    hide Run, Steps, Reenter, IsAncestor;
    if schedule == [] {
      PlacedSteps(l, pc, rev, merge, Rank(pc));
      EnoughSteps(l, pc, merge, Rank(pc));
    } else {
      PlacedSteps(l, pc, rev, merge, schedule[0]);
      var l' := Steps(l, pc, merge, schedule[0]).0;
      CommitIdLandingRests(l', Reenter(l'.place, rev), rev, merge, schedule[1..]);
      var r := Crashing(l', Reenter(l'.place, rev), rev, merge, schedule[1..]);
      AncestryStable(l'.repo.graph, r.repo.graph, l.repo.main, l'.repo.main);
      AncestorTransitive(r.repo.graph, l.repo.main, l'.repo.main, r.repo.main);
    }
  }
}
