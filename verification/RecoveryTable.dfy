/** What a restart makes of an issue, pairing by pairing, and which workspace it lands from; both said
    without the decision table and the scan that bring it about. */
module RecoveryTable {
  import opened Common
  import opened CommitGraph
  import opened State
  import opened Landing
  import opened CrashSchedules
  import opened Text
  import opened WorkspaceNames
  import opened Recovery

  // --- leftover workers -----------------------------------------------------

  function LeavesOf(ws: seq<Worker>): set<string> {
    set k | 0 <= k < |ws| && Parse(ws[k].leaf).Some? :: ws[k].leaf
  }

  /** Dropping workers forgets exactly their workspaces. */
  lemma {:induction false} ForgetsExactly(r: Repo, ws: seq<Worker>)
    ensures ForgetAll(r, ws).workspaces == r.workspaces - LeavesOf(ws)
    decreases |ws|
  {
    hide Parse;
    if ws != [] {
      ForgetsExactly(Forget(r, ws[0]), ws[1..]);
      LeavesOfCons(ws);
    }
  }

  lemma LeavesOfCons(ws: seq<Worker>)
    requires ws != []
    ensures LeavesOf(ws) == LeavesOf(ws[1..]) + if Parse(ws[0].leaf).Some? then {ws[0].leaf} else {}
  {
    hide Parse;
    var rest := ws[1..];
    assert forall k :: 0 <= k < |rest| ==> rest[k] == ws[k + 1];
    forall k | 0 <= k < |ws| && Parse(ws[k].leaf).Some?
      ensures ws[k].leaf in LeavesOf(rest) + if Parse(ws[0].leaf).Some? then {ws[0].leaf} else {}
    {
      if k > 0 { assert rest[k - 1].leaf in LeavesOf(rest); }
    }
    forall k | 0 <= k < |rest| && Parse(rest[k].leaf).Some? ensures rest[k].leaf in LeavesOf(ws) {
      assert ws[k + 1].leaf in LeavesOf(ws);
    }
  }

  lemma ReapForgets(n: Node, i: Issue, keep: nat)
    requires keep <= |WorkersOf(n, i)|
    ensures Reap(n, i, keep).repo.workspaces == n.repo.workspaces - LeavesOf(WorkersOf(n, i)[keep..])
  {
    ForgetsExactly(n.repo, WorkersOf(n, i)[keep..]);
    hide ForgetAll, LeavesOf;
    if |WorkersOf(n, i)| == keep {
      assert WorkersOf(n, i)[keep..] == [];
      NoLeaves();
    }
  }

  lemma NoLeaves()
    ensures LeavesOf([]) == {}
  {
  }

  /** Only the oldest worker stays, and of `spaces` only those of the others are forgotten. */
  predicate KeepsFirst(n: Node, spaces: map<string, nat>, m: Node, i: Issue) {
    var ws := WorkersOf(n, i);
    if |ws| <= 1 then WorkersOf(m, i) == ws && m.repo.workspaces == spaces
    else WorkersOf(m, i) == ws[..1] && m.repo.workspaces == spaces - LeavesOf(ws[1..])
  }

  lemma ReapKeepsFirst(n: Node, i: Issue)
    ensures KeepsFirst(n, n.repo.workspaces, Reap(n, i, 1), i)
  {
    ReapIsExact(n, i, 1);
    if |WorkersOf(n, i)| > 1 { ReapForgets(n, i, 1); }
    hide ForgetAll, LeavesOf;
  }

  lemma SamePeople(n: Node, m: Node, i: Issue, keep: nat)
    requires m.workers == n.workers && m.repo == n.repo
    ensures WorkersOf(m, i) == WorkersOf(n, i) && Reap(m, i, keep).repo == Reap(n, i, keep).repo
    ensures WorkersOf(Reap(m, i, keep), i) == WorkersOf(Reap(n, i, keep), i)
    ensures KeepsFirst(n, n.repo.workspaces, Reap(m, i, 1), i)
  {
    ReapKeepsFirst(m, i);
    hide ForgetAll, LeavesOf;
  }

  // --- what stays -----------------------------------------------------------

  /** Nobody works on the issue and nothing of it is half done. */
  predicate AtRest(n: Node, i: Issue)
    requires i in n.rows
  {
    var p := n.rows[i].place;
    || p == Place(Graphed, Null)
    || (p == IMPLEMENTING && WorkersOf(n, i) == [])
    || (IsTerminal(p.phase) && p.column != Token(AnswerSent))
  }

  /** Such an issue is left as it is; at most stray worker rows go. */
  lemma RestIsLeftAlone(n: Node, i: Issue, env: Env)
    requires Valid(n.repo) && i in n.rows && AtRest(n, i)
    ensures var m := RecoverOne(n, i, env);
      && m.rows == n.rows && m.open == n.open && m.replayed == n.replayed
      && m.repo.graph == n.repo.graph && m.repo.main == n.repo.main
      && if Skipped(n.rows[i].place) then m == n else KeepsFirst(n, n.repo.workspaces, m, i)
  {
    ReapIsExact(n, i, 1);
    ReapKeepsTrunk(n, i, 1);
    ReapKeepsFirst(n, i);
    hide Reap, Valid, WorkersOf, KeepsFirst;
    if !Skipped(n.rows[i].place) { assert PlanFor(n, i) == NoAction; }
  }

  // --- what goes back to implementing ---------------------------------------

  /** Work that a crash interrupted: an implementer that left no sentinel, a QA run, a review. */
  predicate Interrupted(n: Node, i: Issue)
    requires i in n.rows
  {
    var p, ws := n.rows[i].place, WorkersOf(n, i);
    || (p == IMPLEMENTING && ws != [] && !ws[0].done)
    || p == Place(QaGate, Null) || p == Place(QaGate, Token(QaRunning)) || p == Place(QaGate, Token(QaPassedPendingTransition))
    || p == Place(AdversaryReview, Null)
  }

  /** The node with the issue's workers gone and its row moved. */
  predicate RolledBack(n: Node, m: Node, i: Issue)
    requires i in n.rows
  {
    && m.rows == n.rows[i := n.rows[i].(place := IMPLEMENTING)] && m.open == n.open && WorkersOf(m, i) == []
    && m.repo.graph == n.repo.graph && m.repo.main == n.repo.main
    && m.repo.workspaces == n.repo.workspaces - LeavesOf(WorkersOf(n, i))
  }

  lemma ReapingRollsBack(n: Node, i: Issue)
    requires Valid(n.repo) && i in n.rows
    ensures RolledBack(n, SetPlace(Reap(n, i, 0), i, IMPLEMENTING), i) && Reap(n, i, 0).replayed == n.replayed
  {
    ReapIsExact(n, i, 0);
    ReapKeepsTrunk(n, i, 0);
    ReapForgets(n, i, 0);
    assert WorkersOf(n, i)[0..] == WorkersOf(n, i);
    hide Reap, LeavesOf, Valid;
  }

  /** It starts over from implementing with nothing replayed, whatever a replay would have done. */
  lemma InterruptedStartsOver(n: Node, i: Issue, env: Env)
    requires Valid(n.repo) && i in n.rows && Interrupted(n, i)
    ensures RolledBack(n, RecoverOne(n, i, env), i) && RecoverOne(n, i, env).replayed == n.replayed
  {
    ReapingRollsBack(n, i);
    hide Reap, Valid, WorkersOf, RolledBack, LeavesOf;
    assert PlanFor(n, i) == CleanCrashedWorker;
  }

  /** A worker that had finished has its artifacts posted first; if that fails the issue is quarantined
      as it stands. Nothing else is ever replayed. */
  lemma FinishedIsReplayed(n: Node, i: Issue, env: Env)
    requires Valid(n.repo) && i in n.rows && n.rows[i].place == IMPLEMENTING && WorkersOf(n, i) != [] && WorkersOf(n, i)[0].done
    ensures var m, w := RecoverOne(n, i, env), WorkersOf(n, i)[0];
      if env.crosslink && !env.replays(w) then m == n.(rows := n.rows[i := n.rows[i].(place := ERROR)])
      else RolledBack(n, m, i) && m.replayed == n.replayed + if env.crosslink then [(i, w)] else []
  {
    var w := WorkersOf(n, i)[0];
    ReapingRollsBack(Replayed(n, i, w, env), i);
    assert RolledBack(n, SetPlace(Reap(Replayed(n, i, w, env), i, 0), i, IMPLEMENTING), i);
    hide Reap, Valid, WorkersOf, RolledBack, LeavesOf;
    assert PlanFor(n, i) == ReplayDoneThenRedrive;
  }

  // --- landings -------------------------------------------------------------

  /** A landing is taken up from the stored change, or from the scan; without either it is quarantined
      as it stands, and an error quarantines it over what the landing had done. */
  lemma LandingIsTakenUp(n: Node, i: Issue, env: Env)
    requires Valid(n.repo) && i in n.rows && AtLanding(n.rows[i].place)
    ensures var m, c := RecoverOne(n, i, env), ChangeFor(n, i, env);
      if c.None? then m == n.(rows := n.rows[i := n.rows[i].(place := ERROR)])
      else
        var (r, end) := Try(Local(n.repo, n.rows[i].place), EntryPoint(n.rows[i].place, c.value), env.merge, env.luck(i));
        && m.rows == n.rows[i := n.rows[i].(place := if end.Fault? then ERROR else r.place)]
        && m.repo.graph == r.repo.graph && m.repo.main == r.repo.main
        && m.open == n.open && m.replayed == n.replayed
        && if end.Fault? then m.repo == r.repo && m.workers == n.workers else KeepsFirst(n, r.repo.workspaces, m, i)
  {
    hide KeepsFirst;
    hide Try, Reap, LandingChange, Valid, WorkersOf, EntryPoint;
    var c := ChangeFor(n, i, env);
    if c.Some? {
      TakenUp(n, i, env, c.value);
    } else {
      NothingToLand(n, i, env);
    }
  }

  lemma NothingToLand(n: Node, i: Issue, env: Env)
    requires Valid(n.repo) && i in n.rows && AtLanding(n.rows[i].place) && ChangeFor(n, i, env).None?
    ensures RecoverOne(n, i, env) == n.(rows := n.rows[i := n.rows[i].(place := ERROR)])
  {
    hide LandingChange, Valid, WorkersOf, Land;
    var p := n.rows[i].place;
    if p == CONVERGED {
      assert PlanFor(n, i) == StartLanding;
    } else {
      assert PlanFor(n, i) == ResumeLanding(p.column.sub);
    }
  }

  lemma TakenUp(n: Node, i: Issue, env: Env, c: nat)
    requires Valid(n.repo) && i in n.rows && AtLanding(n.rows[i].place) && ChangeFor(n, i, env) == Some(c)
    ensures var m, pc := RecoverOne(n, i, env), EntryPoint(n.rows[i].place, c);
      Sound(Local(n.repo, n.rows[i].place), pc)
      && var (r, end) := Try(Local(n.repo, n.rows[i].place), pc, env.merge, env.luck(i));
      && m.rows == n.rows[i := n.rows[i].(place := if end.Fault? then ERROR else r.place)]
      && m.repo.graph == r.repo.graph && m.repo.main == r.repo.main
      && m.open == n.open && m.replayed == n.replayed
      && if end.Fault? then m.repo == r.repo && m.workers == n.workers else KeepsFirst(n, r.repo.workspaces, m, i)
  {
    hide KeepsFirst;
    hide Try, Reap, LandingChange, Valid, WorkersOf, Execute, PlanFor, ChangeFor, Skipped, EntryPoint, Land, AtLanding;
    ExecuteReenters(n, i, env, c);
    var pc := EntryPoint(n.rows[i].place, c);
    WhatLandLeaves(n, i, pc, env);
  }

  lemma WhatLandLeaves(n: Node, i: Issue, pc: Pc, env: Env)
    requires Valid(n.repo) && i in n.rows && Sound(Local(n.repo, n.rows[i].place), pc)
    ensures var (r, end) := Try(Local(n.repo, n.rows[i].place), pc, env.merge, env.luck(i));
      var landed := Land(n, i, pc, env);
      var m := Landed(landed, i).node;
      && landed.Failed? == end.Fault?
      && m.rows == n.rows[i := n.rows[i].(place := r.place)] && m.open == n.open && m.replayed == n.replayed
      && m.repo.graph == r.repo.graph && m.repo.main == r.repo.main
      && if end.Fault? then m.repo == r.repo && m.workers == n.workers else KeepsFirst(n, r.repo.workspaces, m, i)
  {
    hide Try, Reap, Valid, LeavesOf;
    var landed := Land(n, i, pc, env).node;
    ReapIsExact(landed, i, 1);
    ReapKeepsTrunk(landed, i, 1);
    ReapKeepsFirst(landed, i);
  }

  /** Past the bookmark move there is nothing to land: what had moved is recorded merged, and what waited
      for a Merger is parked, its worker gone. */
  lemma PastLandingIsFinished(n: Node, i: Issue, env: Env)
    requires Valid(n.repo) && i in n.rows && PastLanding(n.rows[i].place)
    ensures var m := RecoverOne(n, i, env);
      && m.rows == n.rows[i := n.rows[i].(place := if n.rows[i].place == LandingAt(Merging) then AWAITING_HUMAN else MERGED)]
      && m.repo.graph == n.repo.graph && m.repo.main == n.repo.main && m.open == n.open && m.replayed == n.replayed
      && if n.rows[i].place == LandingAt(Merging) then
           WorkersOf(m, i) == [] && m.repo.workspaces == n.repo.workspaces - LeavesOf(WorkersOf(n, i))
         else KeepsFirst(n, n.repo.workspaces, m, i)
  {
    hide KeepsFirst, LeavesOf;
    ReapForgets(n, i, 0);
    assert WorkersOf(n, i)[0..] == WorkersOf(n, i);
    SamePeople(n, SetPlace(n, i, MERGED), i, 1);
    ReapIsExact(n, i, 0);
    ReapKeepsTrunk(n, i, 0);
    ReapIsExact(SetPlace(n, i, MERGED), i, 1);
    ReapKeepsTrunk(SetPlace(n, i, MERGED), i, 1);
    hide Reap, Valid, WorkersOf;
    assert PlanFor(n, i) == ResumeLanding(n.rows[i].place.column.sub);
  }

  predicate AtRemoteLanding(p: Place) {
    p == LandingAt(PushStarted) || p == LandingAt(PushDonePrPending) || p == LandingAt(PrCreated)
  }

  lemma RemoteLandingIsResumed(n: Node, i: Issue, env: Env)
    requires Valid(n.repo) && i in n.rows && AtRemoteLanding(n.rows[i].place)
    ensures var m := RecoverOne(n, i, env);
      && m.rows == n.rows[i := n.rows[i].(place := if env.crosslink && env.remote(i) then PR_OPEN else ERROR)]
      && m.repo.graph == n.repo.graph && m.repo.main == n.repo.main && m.open == n.open && m.replayed == n.replayed
      && if env.crosslink && env.remote(i) then KeepsFirst(n, n.repo.workspaces, m, i)
         else m.repo == n.repo && m.workers == n.workers
  {
    hide KeepsFirst;
    SamePeople(n, SetPlace(n, i, PR_OPEN), i, 1);
    ReapIsExact(SetPlace(n, i, PR_OPEN), i, 1);
    ReapKeepsTrunk(SetPlace(n, i, PR_OPEN), i, 1);
    hide Reap, Valid, WorkersOf;
    assert PlanFor(n, i) == ResumeRemoteLanding(n.rows[i].place.column.sub);
  }

  // --- answers and everything else ------------------------------------------

  /** An answer that was sent has its issue closed, as far as there is a tracker that answers. */
  lemma SentAnswerIsClosed(n: Node, i: Issue, env: Env)
    requires Valid(n.repo) && i in n.rows && IsTerminal(n.rows[i].place.phase) && n.rows[i].place.column == Token(AnswerSent)
    ensures var m := RecoverOne(n, i, env);
      && m.rows == (if env.crosslink && !env.tracker(i) then n.rows[i := n.rows[i].(place := ERROR)] else n.rows)
      && m.open == (if env.crosslink && env.tracker(i) then n.open - {i} else n.open)
      && m.repo.graph == n.repo.graph && m.repo.main == n.repo.main && m.replayed == n.replayed
      && if env.crosslink && !env.tracker(i) then m.repo == n.repo && m.workers == n.workers
         else KeepsFirst(n, n.repo.workspaces, m, i)
  {
    hide KeepsFirst;
    ReapKeepsFirst(n, i);
    SamePeople(n, n.(open := n.open - {i}), i, 1);
    ReapIsExact(n, i, 1);
    ReapKeepsTrunk(n, i, 1);
    ReapIsExact(n.(open := n.open - {i}), i, 1);
    ReapKeepsTrunk(n.(open := n.open - {i}), i, 1);
    hide Reap, Valid, WorkersOf;
    assert PlanFor(n, i) == CompleteAnswerClose;
  }

  /** A pairing of phase and substate the orchestrator writes. */
  predicate IsRecognised(p: Place) {
    match p.phase
    case Graphed => p.column.Null?
    case Implementing => p.column.Null?
    case QaGate => p.column.Null? || p.column == Token(QaRunning) || p.column == Token(QaPassedPendingTransition)
    case AdversaryReview => p.column.Null?
    case Converged => p.column.Null?
    case Landing => p.column.Token? && !IsAnswer(p.column.sub) && !p.column.sub.QaRunning? && !p.column.sub.QaPassedPendingTransition?
    case _ => true
  }

  /** Any other pairing is quarantined, with nothing else touched. */
  lemma ForeignIsQuarantined(n: Node, i: Issue, env: Env)
    requires Valid(n.repo) && i in n.rows && !IsRecognised(n.rows[i].place)
    ensures RecoverOne(n, i, env) == n.(rows := n.rows[i := n.rows[i].(place := ERROR)])
  {
    hide Valid, WorkersOf;
    assert PlanFor(n, i) == Unrecoverable;
  }

  /** A call that recovering this issue makes, and that fails. */
  ghost predicate CallFails(n: Node, i: Issue, env: Env)
    requires Valid(n.repo) && i in n.rows
  {
    var p, ws := n.rows[i].place, WorkersOf(n, i);
    || (p == IMPLEMENTING && ws != [] && ws[0].done && env.crosslink && !env.replays(ws[0]))
    || (AtRemoteLanding(p) && !(env.crosslink && env.remote(i)))
    || (p.column == Token(AnswerSent) && env.crosslink && !env.tracker(i))
    || (AtLanding(p) && (ChangeFor(n, i, env).None?
         || Try(Local(n.repo, p), EntryPoint(p, ChangeFor(n, i, env).value), env.merge, env.luck(i)).1.Fault?))
  }

  /** Quarantine, exactly: an issue ends a turn at orchestrator-error iff it was there, or its pairing is
      none the orchestrator writes, or a call that its recovery needs failed. */
  lemma QuarantinedExactly(n: Node, i: Issue, env: Env)
    requires Valid(n.repo) && i in n.rows
    ensures i in RecoverOne(n, i, env).rows
    ensures RecoverOne(n, i, env).rows[i].place.phase.OrchestratorError?
      <==> n.rows[i].place.phase.OrchestratorError? || !IsRecognised(n.rows[i].place) || CallFails(n, i, env)
  {
    var p := n.rows[i].place;
    if !IsRecognised(p) {
      ForeignIsQuarantined(n, i, env);
    } else if AtRest(n, i) {
      RestIsLeftAlone(n, i, env);
    } else if Interrupted(n, i) {
      InterruptedStartsOver(n, i, env);
    } else if AtLanding(p) {
      LandingIsTakenUp(n, i, env);
      if ChangeFor(n, i, env).Some? { LandedPlaces(n, i, env, ChangeFor(n, i, env).value); }
    } else if PastLanding(p) {
      PastLandingIsFinished(n, i, env);
    } else if AtRemoteLanding(p) {
      RemoteLandingIsResumed(n, i, env);
    } else if IsTerminal(p.phase) {
      SentAnswerIsClosed(n, i, env);
    } else {
      FinishedIsReplayed(n, i, env);
    }
    hide RecoverOne, Try, ChangeFor, WorkersOf, Valid, EntryPoint;
  }

  lemma LandedPlaces(n: Node, i: Issue, env: Env, c: nat)
    requires Valid(n.repo) && i in n.rows && AtLanding(n.rows[i].place)
    ensures var (r, end) := Try(Local(n.repo, n.rows[i].place), EntryPoint(n.rows[i].place, c), env.merge, env.luck(i));
      end.Fault? || !r.place.phase.OrchestratorError?
  {
    LandingRests(Local(n.repo, n.rows[i].place), EntryPoint(n.rows[i].place, c), env.merge, env.luck(i));
    hide Try, Valid;
  }

  // --- which workspace is landed --------------------------------------------

  /** A name that was generated for an implementer of this issue in this round. */
  ghost predicate MadeFor(name: string, i: Issue, round: nat) {
    exists uuid :: IsShortUuid(uuid) && name == AsStr(Generate(Implementing, i, round, uuid))
  }

  /** Rounds are not negative; a row that says otherwise means round zero. */
  function RoundOf(round: int): nat {
    if round > 0 then round else 0
  }

  lemma LandingWorkspaceExactly(name: string, i: Issue, round: int, minted: string)
    requires round < U32 && IsShortUuid(minted)
    ensures IsLandingWorkspace(name, i, round, minted) <==> MadeFor(name, i, RoundOf(round))
  {
    hide Parse, AsStr, IssueMatches, IsShortUuid, Sanitize;
    ParseIsCanonical(name);
    if IsLandingWorkspace(name, i, round, minted) {
      var n := Parse(name).value;
      MatchIsSegmentEquality(n, i, minted);
      GenerateRoundTrip(Implementing, i, RoundOf(round), n.uuid);
      assert n == Generate(Implementing, i, RoundOf(round), n.uuid);
    }
    if MadeFor(name, i, RoundOf(round)) {
      var uuid :| IsShortUuid(uuid) && name == AsStr(Generate(Implementing, i, RoundOf(round), uuid));
      GenerateRoundTrip(Implementing, i, RoundOf(round), uuid);
      MatchIsSegmentEquality(Generate(Implementing, i, RoundOf(round), uuid), i, minted);
    }
  }

  /** Registered, and made for this issue and round. */
  ghost predicate Fits(r: Repo, name: string, i: Issue, round: nat) {
    name in r.workspaces && MadeFor(name, i, round)
  }

  /** The scan finds the first listed workspace made for this issue and round that is registered, and
      finds none only if there is none. */
  lemma {:induction false} ScanFindsFirst(r: Repo, entries: seq<string>, k: nat, i: Issue, round: int, minted: string)
    requires k <= |entries| && round < U32 && IsShortUuid(minted)
    ensures match ScanFrom(r, entries, k, i, round, minted)
      case None => forall j :: k <= j < |entries| ==> !Fits(r, entries[j], i, RoundOf(round))
      case Some(c) => exists m :: k <= m < |entries| && Fits(r, entries[m], i, RoundOf(round)) && r.workspaces[entries[m]] == c
                                  && forall j :: k <= j < m ==> !Fits(r, entries[j], i, RoundOf(round))
    decreases |entries| - k
  {
    hide IsLandingWorkspace, MadeFor;
    if k < |entries| {
      LandingWorkspaceExactly(entries[k], i, round, minted);
      if !Fits(r, entries[k], i, RoundOf(round)) { ScanFindsFirst(r, entries, k + 1, i, round, minted); }
    }
  }

  /** A workspace of another phase, another round or another issue is never the one found. */
  lemma OthersDoNotFit(phase: Phase, j: Issue, other: nat, uuid: string, i: Issue, round: nat)
    requires other < U32 && round < U32 && IsShortUuid(uuid)
    ensures MadeFor(AsStr(Generate(phase, j, other, uuid)), i, round)
      <==> phase.Implementing? && other == round && IssueSegment(j) == IssueSegment(i)
  {
    hide Parse, AsStr, IsShortUuid, Sanitize;
    GenerateRoundTrip(phase, j, other, uuid);
    if MadeFor(AsStr(Generate(phase, j, other, uuid)), i, round) {
      var mine :| IsShortUuid(mine) && AsStr(Generate(phase, j, other, uuid)) == AsStr(Generate(Implementing, i, round, mine));
      GenerateRoundTrip(Implementing, i, round, mine);
    }
  }

  /** In particular, for the tracker's decimal ids, only that very issue's workspace of that round. */
  lemma OnlyItsOwnRoundFits(phase: Phase, m: nat, other: nat, uuid: string, n: nat, round: nat)
    requires other < U32 && round < U32 && IsShortUuid(uuid)
    ensures MadeFor(AsStr(Generate(phase, Digits(m), other, uuid)), Digits(n), round)
      <==> phase.Implementing? && other == round && m == n
  {
    hide AsStr, IsShortUuid, Sanitize, Digits, MadeFor;
    OthersDoNotFit(phase, Digits(m), other, uuid, Digits(n), round);
    NumberOfDigits(m);
    NumberOfDigits(n);
    DigitsAreASlug(m);
    DigitsAreASlug(n);
    SanitizeFixesSlugs(Digits(m));
    SanitizeFixesSlugs(Digits(n));
  }
}
