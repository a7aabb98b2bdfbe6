/** Local-mode landing: the persisted substate machine that rebases a change onto `main` and
    fast-forwards `main` to it, one durable write or one jj operation at a time. */
module Landing {
  import opened Common
  import opened CommitGraph
  import opened State

  /** What a landing reads and writes: the repository and the issue's phase columns. */
  datatype Local = Local(repo: Repo, place: Place)

  /** Where the code stands between two operations, with the values held only in memory. */
  datatype Pc =
    | Begin(rev: Revset)
    | Check(rev: Revset)
    | Skip(rev: Revset)
    | DoRebase(rev: Revset)
    | Rebased(target: nat)
    | Bookmark(rev: Revset)
    | Move(target: nat)
    | Moved
    | Finish
    | ParkMerging
    | Done
    | Conflicted(target: nat)
    | Fault

  predicate Stopped(pc: Pc) {
    pc.Done? || pc.Conflicted? || pc.Fault?
  }

  ghost predicate Sound(l: Local, pc: Pc) {
    Valid(l.repo) && ((pc.Rebased? || pc.Move? || pc.Conflicted?) ==> pc.target < |l.repo.graph|)
  }

  /** One operation of the landing code. */
  function Step(l: Local, pc: Pc, merge: Merge): (r: (Local, Pc))
    requires Closed(l.repo.graph, l.repo.visible) && l.repo.main in l.repo.visible
    requires (pc.Rebased? || pc.Move? || pc.Conflicted?) ==> pc.target < |l.repo.graph|
  {
    var repo := l.repo;
    match pc
    case Begin(rev) => (l.(place := LandingAt(RebaseStarted)), Check(rev))
    case Check(rev) =>
      (match Resolve(repo, rev)
       case None => (l, Fault)
       case Some(c) => (l, if IsAncestor(repo.graph, repo.main, c) then Skip(rev) else DoRebase(rev)))
    case Skip(rev) =>
      (match Resolve(repo, rev) case None => (l, Fault) case Some(c) => (l, Rebased(c)))
    case DoRebase(rev) =>
      (match Resolve(repo, rev)
       case None => (l, Fault)
       case Some(c) => (l.(repo := Rebase(repo, c, repo.main, merge)), Rebased(|repo.graph|)))
    case Rebased(t) =>
      if repo.graph[t].conflict then (l.(place := LandingAt(Merging)), Conflicted(t))
      else (l.(place := LandingAt(RebaseDoneBookmarkPending)), Move(t))
    case Bookmark(rev) =>
      (match Resolve(repo, rev) case None => (l, Fault) case Some(c) => (l, Move(c)))
    case Move(t) =>
      if repo.main == t then (l, Moved)
      else if IsAncestor(repo.graph, repo.main, t) then
        (l.(repo := MoveMain(repo, t)), Moved)
      else (l.(place := AWAITING_HUMAN), Done)
    case Moved => (l.(place := LandingAt(BookmarkMovedComplete)), Finish)
    case Finish => (l.(place := MERGED), Done)
    case ParkMerging => (l.(place := AWAITING_HUMAN), Done)
    case _ => (l, pc)
  }

  function Rank(pc: Pc): nat {
    match pc
    case Begin(_) => 7
    case Check(_) => 6
    case Skip(_) => 5
    case DoRebase(_) => 5
    case Rebased(_) => 4
    case Bookmark(_) => 4
    case Move(_) => 3
    case Moved => 2
    case Finish => 1
    case ParkMerging => 1
    case _ => 0
  }

  lemma StepIsSound(l: Local, pc: Pc, merge: Merge)
    requires Sound(l, pc)
    ensures Sound(Step(l, pc, merge).0, Step(l, pc, merge).1)
  {
    match pc
    case DoRebase(rev) =>
      var c := Resolve(l.repo, rev);
      if c.Some? { RebaseIsValid(l.repo, c.value, l.repo.main, merge); }
    case Check(rev) =>
    case Skip(rev) =>
    case Bookmark(rev) =>
    case Move(t) =>
    case _ =>
  }

  lemma StepTerminates(l: Local, pc: Pc, merge: Merge)
    requires Sound(l, pc) && !Stopped(pc)
    ensures Rank(Step(l, pc, merge).1) < Rank(pc)
  {
  }

  /** Every single operation of the landing code moves `main` forward or not at all. */
  lemma StepAdvancesMain(l: Local, pc: Pc, merge: Merge)
    requires Sound(l, pc)
    ensures var r := Step(l, pc, merge).0.repo;
      l.repo.graph <= r.graph && r.main < |r.graph| && IsAncestor(r.graph, l.repo.main, r.main)
  {
    StepIsSound(l, pc, merge);
    if pc.DoRebase? && Resolve(l.repo, pc.rev).Some? {
      RebaseOntoMainAdvances(l.repo, Resolve(l.repo, pc.rev).value, merge);
    }
  }

  // --- whole landings -------------------------------------------------------

  /** The `resume_from` dispatch. */
  function Entry(rev: Revset, from: Substate): Pc {
    match from
    case RebaseStarted => Begin(rev)
    case RebaseDoneBookmarkPending => Bookmark(rev)
    case BookmarkMovedComplete => Finish
    case Merging => ParkMerging
    case _ => Fault
  }

  /** Run without interruption until the code returns. */
  ghost function Run(l: Local, pc: Pc, merge: Merge): (r: (Local, Pc))
    requires Sound(l, pc)
    ensures Sound(r.0, r.1) && Stopped(r.1)
    decreases Rank(pc)
  {
    if Stopped(pc) then (l, pc)
    else
      StepIsSound(l, pc, merge); StepTerminates(l, pc, merge);
      Run(Step(l, pc, merge).0, Step(l, pc, merge).1, merge)
  }

  lemma Unroll(l: Local, pc: Pc, merge: Merge)
    requires Sound(l, pc) && !Stopped(pc)
    ensures var (l', pc') := Step(l, pc, merge);
      Sound(l', pc') && Run(l, pc, merge) == Run(l', pc', merge)
  {
    StepIsSound(l, pc, merge);
  }

  lemma RunStopped(l: Local, pc: Pc, merge: Merge)
    requires Sound(l, pc) && Stopped(pc)
    ensures Run(l, pc, merge) == (l, pc)
  {
  }

  // --- operations that fail -------------------------------------------------

  /** How many operations go through before one reports an error, having done nothing; none does if
      there is no such number. */
  type Luck = Option<nat>

  function Left(luck: Luck): Luck {
    if luck.Some? && luck.value > 0 then Some(luck.value - 1) else luck
  }

  /** Run until the code returns, which it does at the first operation that fails. */
  ghost function Try(l: Local, pc: Pc, merge: Merge, luck: Luck): (r: (Local, Pc))
    requires Sound(l, pc)
    ensures Sound(r.0, r.1) && Stopped(r.1)
    decreases Rank(pc)
  {
    if Stopped(pc) then (l, pc)
    else if luck == Some(0) then (l, Fault)
    else
      StepIsSound(l, pc, merge); StepTerminates(l, pc, merge);
      Try(Step(l, pc, merge).0, Step(l, pc, merge).1, merge, Left(luck))
  }

  /** Every state that landing passes through, one per operation. */
  ghost function Path(l: Local, pc: Pc, merge: Merge, luck: Luck): (p: seq<Local>)
    requires Sound(l, pc)
    decreases Rank(pc)
  {
    if Stopped(pc) || luck == Some(0) then []
    else
      StepIsSound(l, pc, merge); StepTerminates(l, pc, merge);
      [Step(l, pc, merge).0] + Path(Step(l, pc, merge).0, Step(l, pc, merge).1, merge, Left(luck))
  }

  lemma Goes(l: Local, pc: Pc, merge: Merge, luck: Luck)
    requires Sound(l, pc) && !Stopped(pc)
    ensures luck == Some(0) ==> Try(l, pc, merge, luck) == (l, Fault) && Path(l, pc, merge, luck) == []
    ensures luck != Some(0) ==>
      var (l', pc') := Step(l, pc, merge);
      Sound(l', pc') && Try(l, pc, merge, luck) == Try(l', pc', merge, Left(luck))
      && Path(l, pc, merge, luck) == [l'] + Path(l', pc', merge, Left(luck))
  {
    StepIsSound(l, pc, merge);
  }

  lemma TryOn(l: Local, pc: Pc, merge: Merge, luck: Luck)
    requires Sound(l, pc) && !Stopped(pc)
    ensures luck == Some(0) ==> Try(l, pc, merge, luck) == (l, Fault)
    ensures luck != Some(0) ==>
      Sound(Step(l, pc, merge).0, Step(l, pc, merge).1)
      && Try(l, pc, merge, luck) == Try(Step(l, pc, merge).0, Step(l, pc, merge).1, merge, Left(luck))
  {
    hide Step, Valid;
    Goes(l, pc, merge, luck);
  }

  lemma Stops(l: Local, pc: Pc, merge: Merge, luck: Luck)
    requires Sound(l, pc) && Stopped(pc)
    ensures Try(l, pc, merge, luck) == (l, pc) && Path(l, pc, merge, luck) == []
  {
  }

  /** A landing that ends without an error is the undisturbed one; with no failing operation it is so in
      any case. */
  lemma {:induction false} TryIsRun(l: Local, pc: Pc, merge: Merge, luck: Luck)
    requires Sound(l, pc)
    ensures luck.None? || !Try(l, pc, merge, luck).1.Fault? ==> Try(l, pc, merge, luck) == Run(l, pc, merge)
    decreases Rank(pc)
  {
    if !Stopped(pc) {
      Unroll(l, pc, merge);
      Goes(l, pc, merge, luck);
      StepTerminates(l, pc, merge);
      hide Run, Try, Step;
      var (m, next) := Step(l, pc, merge);
      if luck != Some(0) { TryIsRun(m, next, merge, Left(luck)); }
    }
  }

  /** A whole landing, however it ends and wherever it fails, only adds commits and only moves `main`
      forward. */
  lemma {:induction false} TryAdvancesMain(l: Local, pc: Pc, merge: Merge, luck: Luck)
    requires Sound(l, pc)
    ensures var r := Try(l, pc, merge, luck).0.repo;
      l.repo.graph <= r.graph && IsAncestor(r.graph, l.repo.main, r.main)
    decreases Rank(pc)
  {
    if !Stopped(pc) && luck != Some(0) {
      Goes(l, pc, merge, luck);
      StepTerminates(l, pc, merge);
      StepAdvancesMain(l, pc, merge);
      hide Try, Step, IsAncestor;
      var (m, next) := Step(l, pc, merge);
      TryAdvancesMain(m, next, merge, Left(luck));
      var r := Try(m, next, merge, Left(luck)).0.repo;
      AncestryStable(m.repo.graph, r.graph, l.repo.main, m.repo.main);
      AncestorTransitive(r.graph, l.repo.main, m.repo.main, r.main);
    }
  }

  lemma RunAdvancesMain(l: Local, pc: Pc, merge: Merge)
    requires Sound(l, pc)
    ensures var r := Run(l, pc, merge).0.repo;
      l.repo.graph <= r.graph && IsAncestor(r.graph, l.repo.main, r.main)
  {
    TryIsRun(l, pc, merge, None);
    TryAdvancesMain(l, pc, merge, None);
    hide Run, Try, IsAncestor;
  }

  datatype Outcome = OutMerged | RebaseConflict(commit: nat) | OutAwaitingHuman | LandingError

  function Report(place: Place, pc: Pc): Outcome {
    match pc
    case Conflicted(t) => RebaseConflict(t)
    case Done => if place == MERGED then OutMerged else OutAwaitingHuman
    case _ => LandingError
  }

  /** The lander as it runs: it owns the handles and writes through them, and any call can fail.
      `trail` records the state after every operation, which is every state a crash could leave
      behind. */
  class Lander {
    var repo: Repo
    var place: Place
    var luck: Luck
    const merge: Merge
    ghost var trail: seq<Local>

    constructor (repo: Repo, place: Place, merge: Merge, luck: Luck)
      requires Valid(repo)
      ensures Now() == Local(repo, place) && this.merge == merge && this.luck == luck && trail == []
    {
      this.repo, this.place, this.merge, this.luck, trail := repo, place, merge, luck, [];
    }

    function Now(): Local reads this { Local(repo, place) }

    ghost predicate Ran(before: Local, was: seq<Local>, luck: Luck, pc: Pc, out: Outcome)
      reads this
      requires Sound(before, pc)
    {
      && Now() == Try(before, pc, merge, luck).0
      && out == Report(place, Try(before, pc, merge, luck).1)
      && trail == was + Path(before, pc, merge, luck)
    }

    /** A call goes through, with what it leaves behind, or fails and leaves everything as it was. */
    twostate predicate Did(ok: bool, after: Local)
      reads this
    {
      && ok == (old(luck) != Some(0)) && luck == Left(old(luck))
      && Now() == (if ok then after else old(Now())) && trail == old(trail) + if ok then [after] else []
    }

    method Call(after: Local) returns (ok: bool)
      modifies this
      ensures Did(ok, after)
    {
      if luck == Some(0) { return false; }
      luck := Left(luck);
      repo, place := after.repo, after.place;
      trail := trail + [after];
      return true;
    }

    method SetPlace(p: Place) returns (ok: bool)
      modifies this
      ensures Did(ok, old(Now()).(place := p))
    {
      ok := Call(Now().(place := p));
    }

    method SetRepo(r: Repo) returns (ok: bool)
      modifies this
      ensures Did(ok, old(Now()).(repo := r))
    {
      ok := Call(Now().(repo := r));
    }

    method Look() returns (ok: bool)
      modifies this
      ensures Did(ok, old(Now()))
    {
      ok := Call(Now());
    }

    method LandLocal(rev: Revset) returns (out: Outcome)
      requires Valid(repo)
      modifies this
      ensures Valid(repo) && Ran(old(Now()), old(trail), old(luck), Begin(rev), out)
    {
      out := ResumeFrom(rev, RebaseStarted);
    }

    method RetryLandAfterMerge(merged: nat) returns (out: Outcome)
      requires Valid(repo) && merged < |repo.graph|
      modifies this
      ensures Valid(repo)
      ensures var before := old(Now()).(place := LandingAt(RebaseDoneBookmarkPending));
        if old(luck) == Some(0) then out.LandingError? && Now() == old(Now())
        else Ran(before, old(trail) + [before], Left(old(luck)), Move(merged), out)
    {
      var ok := SetPlace(LandingAt(RebaseDoneBookmarkPending));
      if !ok { return LandingError; }
      out := MoveStep(merged);
    }

    method ResumeFrom(rev: Revset, from: Substate) returns (out: Outcome)
      requires Valid(repo)
      modifies this
      ensures Valid(repo) && Ran(old(Now()), old(trail), old(luck), Entry(rev, from), out)
    {
      match from
      case RebaseStarted => out := RebaseStep(rev);
      case RebaseDoneBookmarkPending => out := BookmarkStep(rev);
      case BookmarkMovedComplete => out := MergedStep();
      case Merging => out := ParkStep();
      case _ => out := LandingError;
    }

    method ParkStep() returns (out: Outcome)
      requires Valid(repo)
      modifies this
      ensures Valid(repo) && Ran(old(Now()), old(trail), old(luck), ParkMerging, out)
    {
      hide Try, Path;
      Goes(Now(), ParkMerging, merge, luck);
      var ok := SetPlace(AWAITING_HUMAN);
      if !ok { return LandingError; }
      Stops(Now(), Done, merge, luck);
      return OutAwaitingHuman;
    }

    method RebaseStep(rev: Revset) returns (out: Outcome)
      requires Valid(repo)
      modifies this
      ensures Valid(repo) && Ran(old(Now()), old(trail), old(luck), Begin(rev), out)
    {
      hide Try, Path;
      Goes(Now(), Begin(rev), merge, luck);
      var ok := SetPlace(LandingAt(RebaseStarted));
      if !ok { return LandingError; }
      out := RebaseUnlessDescendant(rev);
    }

    /** A change already on or above `main` is not rewritten again, which is what makes a resume
        after the rebase idempotent. */
    method RebaseUnlessDescendant(rev: Revset) returns (out: Outcome)
      requires Valid(repo)
      modifies this
      ensures Valid(repo) && Ran(old(Now()), old(trail), old(luck), Check(rev), out)
    {
      hide Try, Path, Rebase;
      Goes(Now(), Check(rev), merge, luck);
      var ok := Look();
      if !ok { return LandingError; }
      var c := Resolve(repo, rev);
      if c.None? {
        Stops(Now(), Fault, merge, luck);
        return LandingError;
      }
      if IsAncestor(repo.graph, repo.main, c.value) {
        Goes(Now(), Skip(rev), merge, luck);
        ok := Look();
        if !ok { return LandingError; }
        out := AfterRebase(c.value);
      } else {
        out := RebaseOntoMain(rev, c.value);
      }
    }

    method RebaseOntoMain(rev: Revset, source: nat) returns (out: Outcome)
      requires Valid(repo) && Resolve(repo, rev) == Some(source)
      modifies this
      ensures Valid(repo) && Ran(old(Now()), old(trail), old(luck), DoRebase(rev), out)
    {
      hide Try, Path, IsAncestor, Rebase;
      Goes(Now(), DoRebase(rev), merge, luck);
      var target := |repo.graph|;
      var ok := SetRepo(Rebase(repo, source, repo.main, merge));
      if !ok { return LandingError; }
      out := AfterRebase(target);
    }

    /** The rest of the rebase step: a conflicted result is handed to a Merger, a clean one is
        moved to by the commit id the rebase produced. */
    method AfterRebase(target: nat) returns (out: Outcome)
      requires Valid(repo) && target < |repo.graph|
      modifies this
      ensures Valid(repo) && Ran(old(Now()), old(trail), old(luck), Rebased(target), out)
    {
      hide Try, Path;
      Goes(Now(), Rebased(target), merge, luck);
      if repo.graph[target].conflict {
        var parked := SetPlace(LandingAt(Merging));
        if !parked { return LandingError; }
        Stops(Now(), Conflicted(target), merge, luck);
        return RebaseConflict(target);
      }
      var ok := SetPlace(LandingAt(RebaseDoneBookmarkPending));
      if !ok { return LandingError; }
      out := MoveStep(target);
    }

    method BookmarkStep(rev: Revset) returns (out: Outcome)
      requires Valid(repo)
      modifies this
      ensures Valid(repo) && Ran(old(Now()), old(trail), old(luck), Bookmark(rev), out)
    {
      hide Try, Path;
      Goes(Now(), Bookmark(rev), merge, luck);
      var ok := Look();
      if !ok { return LandingError; }
      var c := Resolve(repo, rev);
      if c.None? {
        Stops(Now(), Fault, merge, luck);
        return LandingError;
      }
      out := MoveStep(c.value);
    }

    method MoveStep(target: nat) returns (out: Outcome)
      requires Valid(repo) && target < |repo.graph|
      modifies this
      ensures Valid(repo) && Ran(old(Now()), old(trail), old(luck), Move(target), out)
    {
      hide Try, Path, MoveMain, IsAncestor;
      Goes(Now(), Move(target), merge, luck);
      var ok;
      if repo.main == target {
        ok := Look();
      } else if IsAncestor(repo.graph, repo.main, target) {
        ok := SetRepo(MoveMain(repo, target));
      } else {
        ok := SetPlace(AWAITING_HUMAN);
        if !ok { return LandingError; }
        Stops(Now(), Done, merge, luck);
        return OutAwaitingHuman;
      }
      if !ok { return LandingError; }
      out := CompleteMove();
    }

    method CompleteMove() returns (out: Outcome)
      requires Valid(repo)
      modifies this
      ensures Valid(repo) && Ran(old(Now()), old(trail), old(luck), Moved, out)
    {
      hide Try, Path;
      Goes(Now(), Moved, merge, luck);
      var ok := SetPlace(LandingAt(BookmarkMovedComplete));
      if !ok { return LandingError; }
      out := MergedStep();
    }

    method MergedStep() returns (out: Outcome)
      requires Valid(repo)
      modifies this
      ensures Valid(repo) && Ran(old(Now()), old(trail), old(luck), Finish, out)
    {
      hide Try, Path;
      Goes(Now(), Finish, merge, luck);
      var ok := SetPlace(MERGED);
      if !ok { return LandingError; }
      Stops(Now(), Done, merge, luck);
      return OutMerged;
    }
  }
}
