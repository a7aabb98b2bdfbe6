/** Restarting after a crash: the decision table over persisted places, and the pass that applies it
    to every issue in turn, quarantining the ones that cannot be recovered. */
module Recovery {
  import opened Common
  import opened CommitGraph
  import opened State
  import opened Landing
  import opened CrashSchedules
  import opened WorkspaceNames

  // --- the table ------------------------------------------------------------

  datatype Plan =
    | NoAction
    | CleanCrashedWorker
    | ReplayDoneThenRedrive
    | ResumeLanding(sub: Substate)
    | ResumeRemoteLanding(sub: Substate)
    | StartLanding
    | CompleteAnswerClose
    | Unrecoverable

  predicate CarriesAnswer(p: Place) {
    p.column.Token? && IsAnswer(p.column.sub)
  }

  /** The phase is never advanced by recovery: terminal, and no answer in it to reconcile. */
  predicate Skipped(p: Place) {
    IsTerminal(p.phase) && !CarriesAnswer(p)
  }

  function PlanRecovery(p: Place, hasWorker: bool, hasDone: bool): Plan {
    if p.column.Foreign? then Unrecoverable
    else if CarriesAnswer(p) then
      if !IsTerminal(p.phase) then Unrecoverable
      else if p.column.sub.AnswerSent? then CompleteAnswerClose
      else NoAction
    else if IsTerminal(p.phase) then NoAction
    else
      match p
      case Place(Graphed, Null) => NoAction
      case Place(Implementing, Null) =>
        if !hasWorker then NoAction else if hasDone then ReplayDoneThenRedrive else CleanCrashedWorker
      case Place(QaGate, Null) => CleanCrashedWorker
      case Place(QaGate, Token(QaRunning)) => CleanCrashedWorker
      case Place(QaGate, Token(QaPassedPendingTransition)) => CleanCrashedWorker
      case Place(Landing, Token(RebaseStarted)) => ResumeLanding(RebaseStarted)
      case Place(Landing, Token(RebaseDoneBookmarkPending)) => ResumeLanding(RebaseDoneBookmarkPending)
      case Place(Landing, Token(Merging)) => ResumeLanding(Merging)
      case Place(Landing, Token(BookmarkMovedComplete)) => ResumeLanding(BookmarkMovedComplete)
      case Place(Landing, Token(PushStarted)) => ResumeRemoteLanding(PushStarted)
      case Place(Landing, Token(PushDonePrPending)) => ResumeRemoteLanding(PushDonePrPending)
      case Place(Landing, Token(PrCreated)) => ResumeRemoteLanding(PrCreated)
      case Place(Converged, Null) => StartLanding
      case Place(AdversaryReview, Null) => CleanCrashedWorker
      case _ => Unrecoverable
  }

  // --- what a pass reads and writes -----------------------------------------

  datatype IssueRow = IssueRow(place: Place, round: int, landingChange: Option<nat>)

  /** `leaf` is the last component of the workspace path; `done` is whether a verified sentinel is in
      it. */
  datatype Worker = Worker(leaf: string, done: bool)

  /** The issue rows, each issue's worker rows oldest first, the repository, the tracker's open
      issues, and the workers whose artifacts recovery has posted. */
  datatype Node = Node(rows: map<Issue, IssueRow>, workers: map<Issue, seq<Worker>>, repo: Repo, open: set<Issue>,
                       replayed: seq<(Issue, Worker)>)

  /** Everything outside: whether there is a tracker handle and its calls for an issue work, whether a
      worker's artifacts replay, whether a remote landing resumes, the order workspaces are listed
      in, a fresh name suffix, how rebases merge, and which operation of an issue's local landing
      fails, if one does. */
  datatype Env = Env(crosslink: bool, tracker: Issue -> bool, replays: Worker -> bool, remote: Issue -> bool,
                     entries: seq<string>, minted: string, merge: Merge, luck: Issue -> Luck)

  function WorkersOf(n: Node, i: Issue): seq<Worker> {
    if i in n.workers then n.workers[i] else []
  }

  function Forget(r: Repo, w: Worker): Repo {
    if Parse(w.leaf).Some? then r.(workspaces := r.workspaces - {w.leaf}) else r
  }

  function ForgetAll(r: Repo, ws: seq<Worker>): Repo
    decreases |ws|
  {
    if ws == [] then r else ForgetAll(Forget(r, ws[0]), ws[1..])
  }

  function SetPlace(n: Node, i: Issue, p: Place): Node
    requires i in n.rows
  {
    n.(rows := n.rows[i := n.rows[i].(place := p)])
  }

  /** Drop the issue's worker rows from the `keep`th on, and their workspaces. */
  function Reap(n: Node, i: Issue, keep: nat): Node {
    var ws := WorkersOf(n, i);
    if |ws| <= keep then n
    else n.(repo := ForgetAll(n.repo, ws[keep..]), workers := n.workers[i := ws[..keep]])
  }

  predicate IsLandingWorkspace(name: string, i: Issue, round: int, minted: string) {
    var parsed := Parse(name);
    && parsed.Some? && parsed.value.phase.Implementing?
    && parsed.value.round == (if round > 0 then round else 0)
    && IssueMatches(parsed.value, i, minted)
  }

  /** The working copy of the first listed implementing workspace of this issue and round. */
  function ScanFrom(r: Repo, entries: seq<string>, k: nat, i: Issue, round: int, minted: string): (c: Option<nat>)
    requires k <= |entries|
    ensures c.Some? ==> exists name :: name in r.workspaces && IsLandingWorkspace(name, i, round, minted) && r.workspaces[name] == c.value
    decreases |entries| - k
  {
    if k == |entries| then None
    else if entries[k] in r.workspaces && IsLandingWorkspace(entries[k], i, round, minted) then Some(r.workspaces[entries[k]])
    else ScanFrom(r, entries, k + 1, i, round, minted)
  }

  function LandingChange(n: Node, i: Issue, env: Env): Option<nat>
    requires i in n.rows
  {
    ScanFrom(n.repo, env.entries, 0, i, n.rows[i].round, env.minted)
  }

  // --- one issue ------------------------------------------------------------

  /** A turn goes through, or stops at an error with what it had done by then. */
  datatype Result = Made(node: Node) | Failed(node: Node)

  /** Land from `pc`; an operation that fails leaves what the ones before it did. */
  ghost function Land(n: Node, i: Issue, pc: Pc, env: Env): (m: Result)
    requires Valid(n.repo) && i in n.rows && Sound(Local(n.repo, n.rows[i].place), pc)
    ensures Valid(m.node.repo) && i in m.node.rows
  {
    var (l, end) := Try(Local(n.repo, n.rows[i].place), pc, env.merge, env.luck(i));
    var m := SetPlace(n.(repo := l.repo), i, l.place);
    if end.Fault? then Failed(m) else Made(m)
  }

  /** The workers that are left over go only when the landing went through. */
  function Landed(r: Result, i: Issue): Result {
    if r.Made? then Made(Reap(r.node, i, 1)) else r
  }

  predicate LandsHere(plan: Plan) {
    plan.StartLanding? || (plan.ResumeLanding? && (plan.sub.RebaseStarted? || plan.sub.RebaseDoneBookmarkPending?))
  }

  /** The stored change resumes a landing; without one, and to start one, the workspaces are
      scanned. */
  function ChangeToLand(n: Node, i: Issue, plan: Plan, env: Env): Option<nat>
    requires i in n.rows
  {
    if plan.ResumeLanding? && n.rows[i].landingChange.Some? then n.rows[i].landingChange else LandingChange(n, i, env)
  }

  ghost function LandPlan(n: Node, i: Issue, plan: Plan, env: Env): (r: Result)
    requires Valid(n.repo) && i in n.rows && LandsHere(plan)
    ensures i in r.node.rows
  {
    match ChangeToLand(n, i, plan, env)
    case None => Failed(n)
    case Some(c) => Landed(Land(n, i, Entry(CommitId(c), if plan.StartLanding? then RebaseStarted else plan.sub), env), i)
  }

  /** Without a tracker there is nothing to post to, and nothing that fails. */
  predicate ReplaysWell(w: Worker, env: Env) {
    env.crosslink ==> env.replays(w)
  }

  function Replayed(n: Node, i: Issue, w: Worker, env: Env): Node {
    if env.crosslink then n.(replayed := n.replayed + [(i, w)]) else n
  }

  /** The plans that do not touch the commits. */
  function Tidy(n: Node, i: Issue, plan: Plan, env: Env): (r: Result)
    requires i in n.rows && !LandsHere(plan)
    ensures i in r.node.rows
  {
    var ws := WorkersOf(n, i);
    match plan
    case NoAction => Made(Reap(n, i, 1))
    case CleanCrashedWorker => Made(SetPlace(Reap(n, i, 0), i, IMPLEMENTING))
    case ReplayDoneThenRedrive =>
      if ws == [] || !ReplaysWell(ws[0], env) then Failed(n)
      else Made(SetPlace(Reap(Replayed(n, i, ws[0], env), i, 0), i, IMPLEMENTING))
    case ResumeLanding(Merging) => Made(SetPlace(Reap(n, i, 0), i, AWAITING_HUMAN))
    case ResumeLanding(BookmarkMovedComplete) => Made(Reap(SetPlace(n, i, MERGED), i, 1))
    case ResumeRemoteLanding(_) =>
      if env.crosslink && env.remote(i) then Made(Reap(SetPlace(n, i, PR_OPEN), i, 1)) else Failed(n)
    case CompleteAnswerClose =>
      if !env.crosslink then Made(Reap(n, i, 1))
      else if !env.tracker(i) then Failed(n)
      else Made(Reap(n.(open := n.open - {i}), i, 1))
    case _ => Failed(n)
  }

  ghost function Execute(n: Node, i: Issue, plan: Plan, env: Env): (r: Result)
    requires Valid(n.repo) && i in n.rows
    ensures i in r.node.rows
  {
    if LandsHere(plan) then LandPlan(n, i, plan, env) else Tidy(n, i, plan, env)
  }

  function PlanFor(n: Node, i: Issue): Plan
    requires i in n.rows
  {
    var ws := WorkersOf(n, i);
    PlanRecovery(n.rows[i].place, ws != [], ws != [] && ws[0].done)
  }

  /** One issue's turn in the pass. */
  ghost function RecoverOne(n: Node, i: Issue, env: Env): Node
    requires Valid(n.repo) && i in n.rows
  {
    if Skipped(n.rows[i].place) then n
    else
      match Execute(n, i, PlanFor(n, i), env)
      case Made(m) => m
      case Failed(m) => SetPlace(m, i, ERROR)
  }

  lemma ReapIsValid(n: Node, i: Issue, keep: nat)
    requires Valid(n.repo)
    ensures Valid(Reap(n, i, keep).repo)
  {
    var ws := WorkersOf(n, i);
    if |ws| > keep { ForgetIsValid(n.repo, ws[keep..]); }
  }

  lemma {:induction false} ForgetIsValid(r: Repo, ws: seq<Worker>)
    requires Valid(r)
    ensures var q := ForgetAll(r, ws); Valid(q) && q.graph == r.graph && q.main == r.main && q.visible == r.visible
    decreases |ws|
  {
    hide Parse;
    if ws != [] { ForgetIsValid(Forget(r, ws[0]), ws[1..]); }
  }

  lemma RecoverOneIsValid(n: Node, i: Issue, env: Env)
    requires Valid(n.repo) && i in n.rows
    ensures Valid(RecoverOne(n, i, env).repo) && RecoverOne(n, i, env).rows.Keys == n.rows.Keys
  {
    hide Valid, Try, LandingChange, Reap, WorkersOf;
    forall m: Node, keep | Valid(m.repo) ensures Valid(Reap(m, i, keep).repo) && Reap(m, i, keep).rows == m.rows {
      ReapIsValid(m, i, keep);
      ReapKeepsRows(m, i, keep);
    }
  }

  lemma ReapKeepsRows(n: Node, i: Issue, keep: nat)
    ensures var m := Reap(n, i, keep);
      m.rows == n.rows && m.open == n.open && m.replayed == n.replayed && |WorkersOf(m, i)| <= |WorkersOf(n, i)|
      && (|WorkersOf(n, i)| <= keep ==> m == n) && (keep <= |WorkersOf(n, i)| ==> |WorkersOf(m, i)| == keep)
    ensures forall j :: j != i ==> WorkersOf(Reap(n, i, keep), j) == WorkersOf(n, j)
  {
  }

  /** Nothing of issue `j` differs. */
  predicate SameFor(n: Node, m: Node, j: Issue) {
    && (j in m.rows <==> j in n.rows) && (j in n.rows ==> m.rows[j] == n.rows[j])
    && WorkersOf(m, j) == WorkersOf(n, j) && (j in m.open <==> j in n.open)
  }

  lemma ReapKeepsOthers(n: Node, m: Node, i: Issue, keep: nat, j: Issue)
    requires SameFor(n, m, j) && j != i
    ensures SameFor(n, Reap(m, i, keep), j)
  {
    ReapKeepsRows(m, i, keep);
    hide Reap, WorkersOf;
  }

  lemma LandKeepsOthers(n: Node, i: Issue, pc: Pc, env: Env, j: Issue)
    requires Valid(n.repo) && i in n.rows && Sound(Local(n.repo, n.rows[i].place), pc) && j != i
    ensures SameFor(n, Landed(Land(n, i, pc, env), i).node, j)
  {
    hide Try, Reap;
    ReapKeepsOthers(n, Land(n, i, pc, env).node, i, 1, j);
  }

  lemma TidyKeepsOthers(n: Node, i: Issue, plan: Plan, env: Env, j: Issue)
    requires i in n.rows && !LandsHere(plan) && j != i
    ensures SameFor(n, Tidy(n, i, plan, env).node, j)
  {
    ReapKeepsOthers(n, n, i, 0, j);
    ReapKeepsOthers(n, n, i, 1, j);
    if WorkersOf(n, i) != [] { ReapKeepsOthers(n, Replayed(n, i, WorkersOf(n, i)[0], env), i, 0, j); }
    ReapKeepsOthers(n, SetPlace(n, i, MERGED), i, 1, j);
    ReapKeepsOthers(n, SetPlace(n, i, PR_OPEN), i, 1, j);
    ReapKeepsOthers(n, n.(open := n.open - {i}), i, 1, j);
    ReapKeepsRows(n, i, 0);
    hide Reap, WorkersOf;
  }

  lemma LandPlanKeepsOthers(n: Node, i: Issue, plan: Plan, env: Env, j: Issue)
    requires Valid(n.repo) && i in n.rows && LandsHere(plan) && j != i
    ensures SameFor(n, LandPlan(n, i, plan, env).node, j)
  {
    hide Land, Landed, ChangeToLand, Valid, WorkersOf;
    var c := ChangeToLand(n, i, plan, env);
    if c.Some? { LandKeepsOthers(n, i, Entry(CommitId(c.value), if plan.StartLanding? then RebaseStarted else plan.sub), env, j); }
  }

  /** Every per-issue step, quarantine included, writes only that issue's rows, besides the
      repository. */
  lemma WritesOnlyItsOwn(n: Node, i: Issue, env: Env, j: Issue)
    requires Valid(n.repo) && i in n.rows && j != i
    ensures SameFor(n, RecoverOne(n, i, env), j)
  {
    hide Valid, LandPlan, Tidy, PlanFor, Skipped, LandsHere;
    if LandsHere(PlanFor(n, i)) {
      LandPlanKeepsOthers(n, i, PlanFor(n, i), env, j);
    } else {
      TidyKeepsOthers(n, i, PlanFor(n, i), env, j);
    }
  }

  // --- coming to rest -------------------------------------------------------

  /** Nothing is left for a pass to do: the issue is skipped, or has at most one worker row and a plan
      without effect. */
  predicate Rested(n: Node, i: Issue, env: Env)
    requires i in n.rows
  {
    || Skipped(n.rows[i].place)
    || (|WorkersOf(n, i)| <= 1
        && (PlanFor(n, i).NoAction?
            || (PlanFor(n, i).CompleteAnswerClose? && (!env.crosslink || (env.tracker(i) && i !in n.open)))))
  }

  predicate AwaitsMerger(n: Node, i: Issue)
    requires i in n.rows
  {
    n.rows[i].place == LandingAt(Merging)
  }

  lemma RestedStays(n: Node, i: Issue, env: Env)
    requires Valid(n.repo) && i in n.rows && Rested(n, i, env)
    ensures RecoverOne(n, i, env) == n
  {
    ReapKeepsRows(n, i, 1);
    hide Reap;
    assert i !in n.open ==> n.open - {i} == n.open;
  }

  /** Where landing code can come to rest. */
  lemma {:induction false} LandingRests(l: Local, pc: Pc, merge: Merge, luck: Luck)
    requires Sound(l, pc) && !pc.Done? && !pc.Conflicted?
    ensures var (r, end) := Try(l, pc, merge, luck);
      end.Fault? || r.place in {MERGED, AWAITING_HUMAN, LandingAt(Merging)}
    decreases Rank(pc)
  {
    if !Stopped(pc) && luck != Some(0) {
      Goes(l, pc, merge, luck);
      StepTerminates(l, pc, merge);
      hide Try, Rebase, MoveMain;
      var (l', pc') := Step(l, pc, merge);
      if pc'.Done? || pc'.Conflicted? {
        Stops(l', pc', merge, Left(luck));
      } else {
        LandingRests(l', pc', merge, Left(luck));
      }
    }
  }

  lemma LandRests(n: Node, i: Issue, pc: Pc, env: Env)
    requires Valid(n.repo) && i in n.rows && Sound(Local(n.repo, n.rows[i].place), pc) && !pc.Done? && !pc.Conflicted?
    ensures var r := Land(n, i, pc, env);
      && r.node.rows.Keys == n.rows.Keys && r.node.workers == n.workers && r.node.open == n.open && r.node.replayed == n.replayed
      && (r.Made? ==> r.node.rows[i].place in {MERGED, AWAITING_HUMAN, LandingAt(Merging)})
  {
    hide Try;
    LandingRests(Local(n.repo, n.rows[i].place), pc, env.merge, env.luck(i));
  }

  lemma ReapBounds(n: Node, i: Issue, keep: nat)
    ensures var m := Reap(n, i, keep);
      m.rows == n.rows && m.open == n.open && m.replayed == n.replayed && |WorkersOf(m, i)| <= keep
  {
  }

  /** What carrying out a plan leaves behind, plan by plan. */
  predicate Settles(n: Node, m: Node, i: Issue, plan: Plan, env: Env)
    requires i in n.rows
  {
    && i in m.rows && |WorkersOf(m, i)| <= 1
    && match plan
       case NoAction => m.rows[i] == n.rows[i] && (WorkersOf(n, i) == [] ==> WorkersOf(m, i) == [])
                        && (WorkersOf(n, i) != [] ==> WorkersOf(m, i) == WorkersOf(n, i)[..1])
       case CompleteAnswerClose => m.rows[i] == n.rows[i] && (env.crosslink ==> env.tracker(i) && i !in m.open)
       case CleanCrashedWorker => m.rows[i].place == IMPLEMENTING && WorkersOf(m, i) == []
       case ReplayDoneThenRedrive => m.rows[i].place == IMPLEMENTING && WorkersOf(m, i) == []
       case ResumeRemoteLanding(_) => m.rows[i].place == PR_OPEN
       case ResumeLanding(Merging) => m.rows[i].place == AWAITING_HUMAN
       case _ => m.rows[i].place in {MERGED, AWAITING_HUMAN, LandingAt(Merging)}
  }

  lemma ReapIsExact(n: Node, i: Issue, keep: nat)
    ensures var m := Reap(n, i, keep);
      m.rows == n.rows && m.open == n.open && m.replayed == n.replayed
      && WorkersOf(m, i) == if |WorkersOf(n, i)| <= keep then WorkersOf(n, i) else WorkersOf(n, i)[..keep]
  {
  }

  lemma LandSettles(n: Node, i: Issue, pc: Pc, plan: Plan, env: Env)
    requires Valid(n.repo) && i in n.rows && Sound(Local(n.repo, n.rows[i].place), pc) && !pc.Done? && !pc.Conflicted?
    requires plan.StartLanding? || (plan.ResumeLanding? && !plan.sub.Merging?)
    ensures var r := Land(n, i, pc, env); r.Made? ==> Settles(n, Reap(r.node, i, 1), i, plan, env)
  {
    LandRests(n, i, pc, env);
    var landed := Land(n, i, pc, env);
    hide Land, Try, Reap;
    if landed.Made? { ReapBounds(landed.node, i, 1); }
  }

  lemma ExecuteSettles(n: Node, i: Issue, plan: Plan, env: Env)
    requires Valid(n.repo) && i in n.rows
    requires plan.ResumeLanding? ==> plan.sub in {RebaseStarted, RebaseDoneBookmarkPending, Merging, BookmarkMovedComplete}
    ensures var r := Execute(n, i, plan, env); i in r.node.rows && (r.Made? ==> Settles(n, r.node, i, plan, env))
  {
    hide Land, LandingChange, Reap, Try;
    var c := LandingChange(n, i, env);
    match plan
    case NoAction => ReapIsExact(n, i, 1);
    case CleanCrashedWorker => ReapIsExact(n, i, 0);
    case ReplayDoneThenRedrive => if WorkersOf(n, i) != [] { ReapIsExact(Replayed(n, i, WorkersOf(n, i)[0], env), i, 0); }
    case ResumeRemoteLanding(_) => ReapIsExact(SetPlace(n, i, PR_OPEN), i, 1);
    case CompleteAnswerClose =>
      ReapIsExact(n, i, 1);
      ReapIsExact(n.(open := n.open - {i}), i, 1);
    case StartLanding => if c.Some? { LandSettles(n, i, Begin(CommitId(c.value)), plan, env); }
    case ResumeLanding(sub) =>
      ReapIsExact(n, i, 0);
      ReapIsExact(SetPlace(n, i, MERGED), i, 1);
      var change := if n.rows[i].landingChange.Some? then n.rows[i].landingChange else c;
      if change.Some? && !sub.Merging? { LandSettles(n, i, Entry(CommitId(change.value), sub), plan, env); }
    case Unrecoverable =>
  }

  /** After its turn an issue is at rest, or waits for a Merger after a conflicted rebase. */
  lemma OneTurnSettles(n: Node, i: Issue, env: Env)
    requires Valid(n.repo) && i in n.rows
    ensures var m := RecoverOne(n, i, env);
      i in m.rows && (Rested(m, i, env) || (AwaitsMerger(m, i) && !AwaitsMerger(n, i)))
  {
    if !Skipped(n.rows[i].place) {
      var plan := PlanFor(n, i);
      ResumableSubs(n.rows[i].place, WorkersOf(n, i) != [], WorkersOf(n, i) != [] && WorkersOf(n, i)[0].done);
      ExecuteSettles(n, i, plan, env);
      hide Execute, Valid, Settles, PlanRecovery, Rested, AwaitsMerger;
      if Execute(n, i, plan, env).Made? {
        SettledRests(n, RecoverOne(n, i, env), i, env);
      } else {
        ErrorRests(Execute(n, i, plan, env).node, i, env);
      }
    } else {
      hide Valid;
    }
  }

  lemma ResumableSubs(p: Place, hasWorker: bool, hasDone: bool)
    ensures var plan := PlanRecovery(p, hasWorker, hasDone);
      plan.ResumeLanding? ==>
        plan.sub in {RebaseStarted, RebaseDoneBookmarkPending, Merging, BookmarkMovedComplete} && p == LandingAt(plan.sub)
  {
  }

  lemma ErrorRests(n: Node, i: Issue, env: Env)
    requires i in n.rows
    ensures Rested(SetPlace(n, i, ERROR), i, env)
  {
    hide PlanRecovery, WorkersOf;
  }

  /** What a carried-out plan leaves behind has nothing left to plan for. */
  lemma SettledRests(n: Node, m: Node, i: Issue, env: Env)
    requires i in n.rows && Settles(n, m, i, PlanFor(n, i), env)
    ensures Rested(m, i, env) || (AwaitsMerger(m, i) && !AwaitsMerger(n, i))
  {
    var plan, ws, vs := PlanFor(n, i), WorkersOf(n, i), WorkersOf(m, i);
    ResumableSubs(n.rows[i].place, ws != [], ws != [] && ws[0].done);
    match plan
    case NoAction =>
      assert vs != [] ==> vs[0] == ws[0];
      assert (vs != []) == (ws != []);
      assert PlanFor(m, i) == plan;
    case CompleteAnswerClose => assert PlanFor(m, i) == plan;
    case CleanCrashedWorker => assert PlanFor(m, i) == NoAction;
    case ReplayDoneThenRedrive => assert PlanFor(m, i) == NoAction;
    case StartLanding => assert n.rows[i].place == CONVERGED;
    case ResumeLanding(_) =>
    case ResumeRemoteLanding(_) =>
    case Unrecoverable => assert m.rows[i].place in {MERGED, AWAITING_HUMAN, LandingAt(Merging)};
  }

  /** The issue is nobody's to recover any more: not yet begun or rolled back with no worker left, or
      ended, or waiting for its Merger. */
  predicate NothingInFlight(n: Node, i: Issue)
    requires i in n.rows
  {
    var p := n.rows[i].place;
    || p == Place(Graphed, Null) || (p == IMPLEMENTING && WorkersOf(n, i) == [])
    || IsTerminal(p.phase) || AwaitsMerger(n, i)
  }

  /** No turn leaves a worker, a QA run, a review, a convergence or a half-done landing behind. */
  lemma TurnClearsFlight(n: Node, i: Issue, env: Env)
    requires Valid(n.repo) && i in n.rows
    ensures var m := RecoverOne(n, i, env); i in m.rows && NothingInFlight(m, i)
  {
    if !Skipped(n.rows[i].place) {
      var plan := PlanFor(n, i);
      ResumableSubs(n.rows[i].place, WorkersOf(n, i) != [], WorkersOf(n, i) != [] && WorkersOf(n, i)[0].done);
      ExecuteSettles(n, i, plan, env);
      hide Execute, Valid;
      if Execute(n, i, plan, env).Made? { SettledClears(n, RecoverOne(n, i, env), i, env); }
    }
  }

  lemma SettledClears(n: Node, m: Node, i: Issue, env: Env)
    requires i in n.rows && Settles(n, m, i, PlanFor(n, i), env)
    ensures NothingInFlight(m, i)
  {
    match PlanFor(n, i)
    case NoAction =>
    case CompleteAnswerClose =>
    case _ =>
  }

  /** The change a local landing is resumed with. */
  function ChangeFor(n: Node, i: Issue, env: Env): Option<nat>
    requires i in n.rows
  {
    if n.rows[i].place.phase.Landing? && n.rows[i].landingChange.Some? then n.rows[i].landingChange
    else LandingChange(n, i, env)
  }

  /** Converged, or landing with `main` not yet known to have moved. */
  predicate AtLanding(p: Place) {
    p == CONVERGED || p == LandingAt(RebaseStarted) || p == LandingAt(RebaseDoneBookmarkPending)
  }

  /** Landing with nothing more to do to the repository. */
  predicate PastLanding(p: Place) {
    p == LandingAt(Merging) || p == LandingAt(BookmarkMovedComplete)
  }

  /** The issue stands at the landing's place, over its commits and its `main`. */
  predicate Carries(m: Node, i: Issue, l: Local) {
    i in m.rows && m.rows[i].place == l.place && m.repo.graph == l.repo.graph && m.repo.main == l.repo.main
  }

  /** A restart does to a local landing what the crash schedules say it does: it re-enters at the
      persisted place, and comes to the same place, `main` and commits. */
  lemma TurnReenters(n: Node, i: Issue, env: Env, c: nat)
    requires Valid(n.repo) && i in n.rows
    requires (AtLanding(n.rows[i].place) && ChangeFor(n, i, env) == Some(c)) || PastLanding(n.rows[i].place)
    requires !Try(Local(n.repo, n.rows[i].place), Reenter(n.rows[i].place, CommitId(c)), env.merge, env.luck(i)).1.Fault?
    ensures Carries(RecoverOne(n, i, env), i, Run(Local(n.repo, n.rows[i].place), Reenter(n.rows[i].place, CommitId(c)), env.merge).0)
  {
    hide Run, Try, Execute, PlanFor, Land, Reap, ChangeFor, Skipped, Carries, Acyclic;
    if n.rows[i].place == LandingAt(Merging) {
      MergingReenters(n, i, env, CommitId(c));
    } else if n.rows[i].place == LandingAt(BookmarkMovedComplete) {
      CompleteReenters(n, i, env, CommitId(c));
    } else {
      ExecuteReenters(n, i, env, c);
      LandedReenters(n, i, env, EntryPoint(n.rows[i].place, c));
    }
  }

  lemma MergingReenters(n: Node, i: Issue, env: Env, rev: Revset)
    requires Valid(n.repo) && i in n.rows && n.rows[i].place == LandingAt(Merging)
    ensures Carries(RecoverOne(n, i, env), i, Run(Local(n.repo, n.rows[i].place), Reenter(n.rows[i].place, rev), env.merge).0)
  {
    var l := Local(n.repo, n.rows[i].place);
    Unroll(l, ParkMerging, env.merge);
    RunStopped(l.(place := AWAITING_HUMAN), Done, env.merge);
    hide Run, Reap;
    ReapKeepsTrunk(n, i, 0);
    ReapBounds(n, i, 0);
  }

  lemma CompleteReenters(n: Node, i: Issue, env: Env, rev: Revset)
    requires Valid(n.repo) && i in n.rows && n.rows[i].place == LandingAt(BookmarkMovedComplete)
    ensures Carries(RecoverOne(n, i, env), i, Run(Local(n.repo, n.rows[i].place), Reenter(n.rows[i].place, rev), env.merge).0)
  {
    var l := Local(n.repo, n.rows[i].place);
    Unroll(l, Finish, env.merge);
    RunStopped(l.(place := MERGED), Done, env.merge);
    hide Run, Reap;
    ReapKeepsTrunk(SetPlace(n, i, MERGED), i, 1);
    ReapBounds(SetPlace(n, i, MERGED), i, 1);
  }

  /** Where a landing that has not moved `main` is taken up. */
  function EntryPoint(p: Place, c: nat): (pc: Pc)
    ensures pc.Begin? || pc.Bookmark?
    ensures AtLanding(p) ==> pc == Reenter(p, CommitId(c))
  {
    if p == LandingAt(RebaseDoneBookmarkPending) then Bookmark(CommitId(c)) else Begin(CommitId(c))
  }

  /** The plan for such a landing is to land the change from where it stands. */
  lemma ExecuteReenters(n: Node, i: Issue, env: Env, c: nat)
    requires Valid(n.repo) && i in n.rows && ChangeFor(n, i, env) == Some(c)
    requires AtLanding(n.rows[i].place)
    ensures Execute(n, i, PlanFor(n, i), env) == Landed(Land(n, i, EntryPoint(n.rows[i].place, c), env), i)
    ensures !Skipped(n.rows[i].place)
  {
    hide Land, Try, Reap, LandingChange, Valid, WorkersOf;
    if n.rows[i].place == CONVERGED {
      assert PlanFor(n, i) == StartLanding;
    } else if n.rows[i].place == LandingAt(RebaseStarted) {
      assert PlanFor(n, i) == ResumeLanding(RebaseStarted);
    } else {
      assert PlanFor(n, i) == ResumeLanding(RebaseDoneBookmarkPending);
    }
  }

  lemma LandCarries(n: Node, i: Issue, pc: Pc, env: Env)
    requires Valid(n.repo) && i in n.rows && Sound(Local(n.repo, n.rows[i].place), pc)
    requires !Try(Local(n.repo, n.rows[i].place), pc, env.merge, env.luck(i)).1.Fault?
    ensures var landed := Land(n, i, pc, env);
      landed.Made? && Carries(Reap(landed.node, i, 1), i, Run(Local(n.repo, n.rows[i].place), pc, env.merge).0)
  {
    TryIsRun(Local(n.repo, n.rows[i].place), pc, env.merge, env.luck(i));
    var m := Land(n, i, pc, env).node;
    assert Carries(m, i, Run(Local(n.repo, n.rows[i].place), pc, env.merge).0);
    hide Run, Try, Reap, Valid;
    ReapKeepsTrunk(m, i, 1);
    ReapBounds(m, i, 1);
  }

  /** A turn whose plan is to land from `pc` comes to what the landing comes to. */
  lemma LandedReenters(n: Node, i: Issue, env: Env, pc: Pc)
    requires Valid(n.repo) && i in n.rows && !Skipped(n.rows[i].place) && Sound(Local(n.repo, n.rows[i].place), pc)
    requires Execute(n, i, PlanFor(n, i), env) == Landed(Land(n, i, pc, env), i)
    requires !Try(Local(n.repo, n.rows[i].place), pc, env.merge, env.luck(i)).1.Fault?
    ensures Carries(RecoverOne(n, i, env), i, Run(Local(n.repo, n.rows[i].place), pc, env.merge).0)
  {
    LandCarries(n, i, pc, env);
    hide Run, Try, Reap, Land, Carries, Valid, Execute, PlanFor, Skipped;
  }

  // --- whole passes ---------------------------------------------------------

  ghost function PassFrom(n: Node, order: seq<Issue>, k: nat, env: Env): (m: Node)
    requires Valid(n.repo) && k <= |order| && forall j :: 0 <= j < |order| ==> order[j] in n.rows
    ensures Valid(m.repo) && m.rows.Keys == n.rows.Keys
    decreases |order| - k
  {
    if k == |order| then n
    else
      RecoverOneIsValid(n, order[k], env);
      PassFrom(RecoverOne(n, order[k], env), order, k + 1, env)
  }

  /** The issues in the order they are listed, each once. */
  predicate Lists(n: Node, order: seq<Issue>) {
    && (forall j :: 0 <= j < |order| ==> order[j] in n.rows)
    && forall j, k :: 0 <= j < k < |order| ==> order[j] != order[k]
  }

  ghost function Pass(n: Node, order: seq<Issue>, env: Env): (m: Node)
    requires Valid(n.repo) && Lists(n, order)
    ensures Valid(m.repo) && Lists(m, order)
  {
    PassFrom(n, order, 0, env)
  }

  /** A turn of another issue leaves this one at rest, or waiting, as it was. */
  lemma OtherTurns(n: Node, j: Issue, env: Env, i: Issue)
    requires Valid(n.repo) && j in n.rows && i in n.rows && i != j
    ensures var m := RecoverOne(n, j, env);
      i in m.rows && (Rested(m, i, env) <==> Rested(n, i, env)) && (AwaitsMerger(m, i) <==> AwaitsMerger(n, i))
  {
    WritesOnlyItsOwn(n, j, env, i);
    hide RecoverOne;
  }

  /** A pass gives every listed issue its turn. */
  lemma {:induction false} PassSettles(n: Node, order: seq<Issue>, k: nat, env: Env, j: nat)
    requires Valid(n.repo) && Lists(n, order) && k <= |order| && j < |order|
    requires j < k ==> Rested(n, order[j], env) || AwaitsMerger(n, order[j])
    ensures var m := PassFrom(n, order, k, env);
      && (Rested(m, order[j], env) || AwaitsMerger(m, order[j]))
      && (k <= j && AwaitsMerger(n, order[j]) ==> Rested(m, order[j], env))
      && (j < k && Rested(n, order[j], env) ==> Rested(m, order[j], env))
    decreases |order| - k
  {
    hide Rested, AwaitsMerger, RecoverOne;
    if k < |order| {
      RecoverOneIsValid(n, order[k], env);
      var m := RecoverOne(n, order[k], env);
      if j == k {
        OneTurnSettles(n, order[k], env);
      } else {
        OtherTurns(n, order[k], env, order[j]);
      }
      PassSettles(m, order, k + 1, env, j);
    }
  }

  lemma {:induction false} PassOverRested(n: Node, order: seq<Issue>, k: nat, env: Env)
    requires Valid(n.repo) && Lists(n, order) && k <= |order|
    requires forall j :: k <= j < |order| ==> Rested(n, order[j], env)
    ensures PassFrom(n, order, k, env) == n
    decreases |order| - k
  {
    hide Rested, RecoverOne;
    if k < |order| {
      RestedStays(n, order[k], env);
      PassOverRested(n, order, k + 1, env);
    }
  }

  /** Recovery comes to a fixpoint in at most two passes: the third changes nothing at all. */
  lemma TwoPassesSuffice(n: Node, order: seq<Issue>, env: Env)
    requires Valid(n.repo) && Lists(n, order)
    ensures var twice := Pass(Pass(n, order, env), order, env);
      Pass(twice, order, env) == twice
  {
    hide Rested, AwaitsMerger, PassFrom;
    var once := Pass(n, order, env);
    var twice := Pass(once, order, env);
    forall j | 0 <= j < |order| ensures Rested(twice, order[j], env) {
      PassSettles(n, order, 0, env, j);
      PassSettles(once, order, 0, env, j);
      if Rested(once, order[j], env) { RestKeeps(once, order, 0, env, j); }
    }
    PassOverRested(twice, order, 0, env);
  }

  lemma {:induction false} RestKeeps(n: Node, order: seq<Issue>, k: nat, env: Env, j: nat)
    requires Valid(n.repo) && Lists(n, order) && k <= |order| && j < |order| && Rested(n, order[j], env)
    ensures Rested(PassFrom(n, order, k, env), order[j], env)
    decreases |order| - k
  {
    hide Rested, RecoverOne;
    if k < |order| {
      RecoverOneIsValid(n, order[k], env);
      if j == k {
        RestedStays(n, order[k], env);
      } else {
        OtherTurns(n, order[k], env, order[j]);
      }
      RestKeeps(RecoverOne(n, order[k], env), order, k + 1, env, j);
    }
  }

  /** The issue's turn lands a change that conflicts, from before its rebase, and nothing fails before
      that is recorded. */
  predicate LandsConflict(n: Node, i: Issue, env: Env)
    requires Valid(n.repo) && i in n.rows
  {
    && (n.rows[i].place == CONVERGED || n.rows[i].place == LandingAt(RebaseStarted))
    && ChangeFor(n, i, env).Some? && Conflicting(n.repo, CommitId(ChangeFor(n, i, env).value), env.merge)
    && (env.luck(i).None? || env.luck(i).value >= 4)
  }

  /** The node at which the `k`th turn of a pass starts. */
  ghost function AtTurn(n: Node, order: seq<Issue>, k: nat, env: Env): (m: Node)
    requires Valid(n.repo) && k <= |order| && forall j :: 0 <= j < |order| ==> order[j] in n.rows
    ensures Valid(m.repo) && m.rows.Keys == n.rows.Keys
  {
    if k == 0 then n
    else
      var m := AtTurn(n, order, k - 1, env);
      RecoverOneIsValid(m, order[k - 1], env);
      RecoverOne(m, order[k - 1], env)
  }

  lemma {:induction false} PassFromTurn(n: Node, order: seq<Issue>, k: nat, env: Env)
    requires Valid(n.repo) && k <= |order| && forall j :: 0 <= j < |order| ==> order[j] in n.rows
    ensures PassFrom(n, order, 0, env) == PassFrom(AtTurn(n, order, k, env), order, k, env)
    decreases k
  {
    hide RecoverOne;
    if k > 0 { PassFromTurn(n, order, k - 1, env); }
  }

  /** A turn leaves its issue waiting for a Merger exactly when it lands a conflict. */
  lemma TurnConflictsExactly(n: Node, i: Issue, env: Env)
    requires Valid(n.repo) && i in n.rows
    ensures i in RecoverOne(n, i, env).rows && (AwaitsMerger(RecoverOne(n, i, env), i) <==> LandsConflict(n, i, env))
  {
    if AtLanding(n.rows[i].place) && ChangeFor(n, i, env).Some? {
      LandingConflictsExactly(n, i, env, ChangeFor(n, i, env).value);
    } else if !Skipped(n.rows[i].place) {
      NotLandingNoConflict(n, i, env);
    }
  }

  lemma LandingConflictsExactly(n: Node, i: Issue, env: Env, c: nat)
    requires Valid(n.repo) && i in n.rows && AtLanding(n.rows[i].place) && ChangeFor(n, i, env) == Some(c)
    ensures i in RecoverOne(n, i, env).rows && (AwaitsMerger(RecoverOne(n, i, env), i) <==> LandsConflict(n, i, env))
  {
    var pc, l := EntryPoint(n.rows[i].place, c), Local(n.repo, n.rows[i].place);
    ExecuteReenters(n, i, env, c);
    ConflictsExactly(l, CommitId(c), env.merge, env.luck(i));
    ReapBounds(Land(n, i, pc, env).node, i, 1);
    hide Try, Reap, Valid, Conflicting, ChangeFor, Execute, PlanFor, Skipped;
    assert AwaitsMerger(RecoverOne(n, i, env), i) <==> AwaitsMerging(Try(l, pc, env.merge, env.luck(i)));
  }

  /** The plans that land are made for the places a landing is taken up at. */
  lemma LandsFromLanding(n: Node, i: Issue, env: Env)
    requires i in n.rows && LandsHere(PlanFor(n, i))
    ensures AtLanding(n.rows[i].place) && ChangeToLand(n, i, PlanFor(n, i), env) == ChangeFor(n, i, env)
  {
    hide LandingChange, WorkersOf;
  }

  lemma WaitingIsParked(n: Node, i: Issue)
    requires i in n.rows && AwaitsMerger(n, i)
    ensures PlanFor(n, i) == ResumeLanding(Merging)
  {
    hide WorkersOf;
  }

  lemma TidyNeverWaits(n: Node, i: Issue, env: Env)
    requires i in n.rows && !LandsHere(PlanFor(n, i)) && Tidy(n, i, PlanFor(n, i), env).Made?
    ensures !AwaitsMerger(Tidy(n, i, PlanFor(n, i), env).node, i)
  {
    ReapKeepsRows(n, i, 0);
    ReapKeepsRows(n, i, 1);
    ReapKeepsRows(SetPlace(n, i, MERGED), i, 1);
    ReapKeepsRows(SetPlace(n, i, PR_OPEN), i, 1);
    ReapKeepsRows(n.(open := n.open - {i}), i, 1);
    if AwaitsMerger(n, i) { WaitingIsParked(n, i); }
    hide Reap, WorkersOf, PlanFor;
  }

  lemma NotLandingNoConflict(n: Node, i: Issue, env: Env)
    requires Valid(n.repo) && i in n.rows && !Skipped(n.rows[i].place)
    requires !AtLanding(n.rows[i].place) || ChangeFor(n, i, env).None?
    ensures !AwaitsMerger(RecoverOne(n, i, env), i)
  {
    hide Tidy, PlanFor, Skipped, AtLanding, ChangeFor, ChangeToLand, Land, Landed, Valid, LandsHere;
    if LandsHere(PlanFor(n, i)) {
      LandsFromLanding(n, i, env);
    } else if Tidy(n, i, PlanFor(n, i), env).Made? {
      TidyNeverWaits(n, i, env);
    }
  }

  lemma {:induction false} LaterTurnsKeepWaiting(n: Node, order: seq<Issue>, k: nat, env: Env, j: nat)
    requires Valid(n.repo) && Lists(n, order) && j < k <= |order|
    ensures AwaitsMerger(PassFrom(n, order, k, env), order[j]) <==> AwaitsMerger(n, order[j])
    decreases |order| - k
  {
    hide RecoverOne, Rested, AwaitsMerger;
    if k < |order| {
      RecoverOneIsValid(n, order[k], env);
      OtherTurns(n, order[k], env, order[j]);
      LaterTurnsKeepWaiting(RecoverOne(n, order[k], env), order, k + 1, env, j);
    }
  }

  lemma LeftWaitingExactly(n: Node, order: seq<Issue>, env: Env, j: nat)
    requires Valid(n.repo) && Lists(n, order) && j < |order|
    ensures AwaitsMerger(Pass(n, order, env), order[j]) <==> LandsConflict(AtTurn(n, order, j, env), order[j], env)
  {
    hide AwaitsMerger, LandsConflict, RecoverOne, Rested, PassFrom;
    var m := AtTurn(n, order, j, env);
    TurnConflictsExactly(m, order[j], env);
    PassFromTurn(n, order, j + 1, env);
    RecoverOneIsValid(m, order[j], env);
    LaterTurnsKeepWaiting(AtTurn(n, order, j + 1, env), order, j + 1, env, j);
  }

  /** One pass is enough exactly when no issue's turn lands a change that conflicts. */
  lemma OnePassSufficesUnlessConflicted(n: Node, order: seq<Issue>, env: Env)
    requires Valid(n.repo) && Lists(n, order)
    ensures var once := Pass(n, order, env);
      Pass(once, order, env) == once <==> forall j :: 0 <= j < |order| ==> !LandsConflict(AtTurn(n, order, j, env), order[j], env)
  {
    hide Rested, AwaitsMerger, PassFrom, LandsConflict, AtTurn;
    var once := Pass(n, order, env);
    forall j | 0 <= j < |order|
      ensures Rested(once, order[j], env) || AwaitsMerger(once, order[j])
      ensures AwaitsMerger(once, order[j]) <==> LandsConflict(AtTurn(n, order, j, env), order[j], env)
    {
      PassSettles(n, order, 0, env, j);
      LeftWaitingExactly(n, order, env, j);
    }
    if j :| 0 <= j < |order| && AwaitsMerger(once, order[j]) {
      PassSettles(once, order, 0, env, j);
      WaitingIsNotRest(once, order[j], env);
    } else {
      PassOverRested(once, order, 0, env);
    }
  }

  /** A node that one pass does not settle: an approved landing had begun its rebase, and `main` has
      moved to a commit beside the change. */
  lemma OnePassCanFallShort(i: Issue) returns (n: Node, env: Env)
    ensures Valid(n.repo) && Lists(n, [i]) && Pass(Pass(n, [i], env), [i], env) != Pass(n, [i], env)
  {
    var g := [Commit([], 0, false), Commit([0], 1, false), Commit([0], 2, false)];
    var repo := Repo(g, {0, 1, 2}, 1, map[]);
    n := Node(map[i := IssueRow(LandingAt(RebaseStarted), 0, Some(2))], map[], repo, {i}, []);
    env := Env(false, _ => false, _ => false, _ => false, [], "", (c, ps) => true, _ => None);
    hide PassFrom, RecoverOne;
    assert !IsAncestor(g, 1, 2);
    assert Names(repo, CommitId(2), 2);
    assert LandsConflict(AtTurn(n, [i], 0, env), [i][0], env);
    OnePassSufficesUnlessConflicted(n, [i], env);
  }

  lemma WaitingIsNotRest(n: Node, i: Issue, env: Env)
    requires i in n.rows && AwaitsMerger(n, i)
    ensures !Rested(n, i, env)
  {
  }

  // --- trunk ----------------------------------------------------------------

  predicate Forward(r: Repo, q: Repo) {
    r.graph <= q.graph && q.main < |q.graph| && IsAncestor(q.graph, r.main, q.main)
  }

  lemma LandAdvancesMain(n: Node, i: Issue, pc: Pc, env: Env)
    requires Valid(n.repo) && i in n.rows && Sound(Local(n.repo, n.rows[i].place), pc)
    ensures Forward(n.repo, Landed(Land(n, i, pc, env), i).node.repo)
  {
    TryAdvancesMain(Local(n.repo, n.rows[i].place), pc, env.merge, env.luck(i));
    hide Try, Reap, IsAncestor;
    ReapKeepsTrunk(Land(n, i, pc, env).node, i, 1);
  }

  lemma TidyKeepsTrunk(n: Node, i: Issue, plan: Plan, env: Env)
    requires Valid(n.repo) && i in n.rows && !LandsHere(plan)
    ensures var r := Tidy(n, i, plan, env).node.repo; r.graph == n.repo.graph && r.main == n.repo.main
  {
    hide Reap, WorkersOf, Valid;
    ReapKeepsTrunk(n, i, 0);
    ReapKeepsTrunk(n, i, 1);
    if WorkersOf(n, i) != [] { ReapKeepsTrunk(Replayed(n, i, WorkersOf(n, i)[0], env), i, 0); }
    ReapKeepsTrunk(SetPlace(n, i, MERGED), i, 1);
    ReapKeepsTrunk(SetPlace(n, i, PR_OPEN), i, 1);
    ReapKeepsTrunk(n.(open := n.open - {i}), i, 1);
  }

  lemma StaysForward(r: Repo)
    requires Valid(r)
    ensures Forward(r, r)
  {
    SelfAncestor(r.graph, r.main);
  }

  lemma LandPlanAdvancesMain(n: Node, i: Issue, plan: Plan, env: Env)
    requires Valid(n.repo) && i in n.rows && LandsHere(plan)
    ensures Forward(n.repo, LandPlan(n, i, plan, env).node.repo)
  {
    hide Land, Landed, ChangeToLand, Forward, Valid, Acyclic;
    StaysForward(n.repo);
    var c := ChangeToLand(n, i, plan, env);
    if c.Some? { LandAdvancesMain(n, i, Entry(CommitId(c.value), if plan.StartLanding? then RebaseStarted else plan.sub), env); }
  }

  /** A turn moves `main` only forward, and only when its plan lands the issue from the bookmark move
      or before. */
  lemma TurnAdvancesMain(n: Node, i: Issue, env: Env)
    requires Valid(n.repo) && i in n.rows
    ensures var r := RecoverOne(n, i, env).repo;
      Forward(n.repo, r) && (r.main != n.repo.main ==> LandsHere(PlanFor(n, i)))
  {
    SelfAncestor(n.repo.graph, n.repo.main);
    hide Execute, IsAncestor, LandsHere;
    if !Skipped(n.rows[i].place) {
      if LandsHere(PlanFor(n, i)) {
        LandPlanAdvancesMain(n, i, PlanFor(n, i), env);
      } else {
        TidyKeepsTrunk(n, i, PlanFor(n, i), env);
      }
    }
  }

  lemma ReapKeepsTrunk(n: Node, i: Issue, keep: nat)
    requires Valid(n.repo)
    ensures var r := Reap(n, i, keep).repo; r.graph == n.repo.graph && r.main == n.repo.main
  {
    var ws := WorkersOf(n, i);
    if |ws| > keep { ForgetIsValid(n.repo, ws[keep..]); }
  }

  /** A whole pass, whatever it finds, only moves `main` forward. */
  lemma {:induction false} PassAdvancesMain(n: Node, order: seq<Issue>, k: nat, env: Env)
    requires Valid(n.repo) && Lists(n, order) && k <= |order|
    ensures Forward(n.repo, PassFrom(n, order, k, env).repo)
    decreases |order| - k
  {
    hide IsAncestor, RecoverOne, LandsHere, PlanFor;
    if k < |order| {
      RecoverOneIsValid(n, order[k], env);
      TurnAdvancesMain(n, order[k], env);
      var m := RecoverOne(n, order[k], env);
      PassAdvancesMain(m, order, k + 1, env);
      var r := PassFrom(m, order, k + 1, env).repo;
      AncestryStable(m.repo.graph, r.graph, n.repo.main, m.repo.main);
      AncestorTransitive(r.graph, n.repo.main, m.repo.main, r.main);
    } else {
      SelfAncestor(n.repo.graph, n.repo.main);
    }
  }

  lemma SelfAncestor(g: Graph, x: nat)
    requires x < |g|
    ensures IsAncestor(g, x, x)
  {
  }

  // --- the pass as it runs --------------------------------------------------

  /** A landing that reports an error has left the repository as it was, unless it was an operation that
      failed; what can be left behind then is a rewritten change or a moved `main`, with the issue
      quarantined. */
  lemma {:induction false} FaultLeavesRepo(l: Local, pc: Pc, merge: Merge, luck: Luck)
    requires Sound(l, pc)
    ensures Try(l, pc, merge, luck).1.Fault? && luck.None? ==> Try(l, pc, merge, luck).0.repo == l.repo
    ensures pc.Rebased? || pc.Move? || pc.Moved? || pc.Finish? || pc.ParkMerging? ==>
      Try(l, pc, merge, luck).1.Fault? ==> luck.Some?
    decreases Rank(pc)
  {
    if !Stopped(pc) {
      Goes(l, pc, merge, luck);
      StepTerminates(l, pc, merge);
      hide Try, Rebase, MoveMain;
      if luck != Some(0) {
        var (m, next) := Step(l, pc, merge);
        if Stopped(next) { Stops(m, next, merge, Left(luck)); } else { FaultLeavesRepo(m, next, merge, Left(luck)); }
      }
    }
  }

  lemma FailedLandPlan(n: Node, i: Issue, plan: Plan, env: Env)
    requires Valid(n.repo) && i in n.rows && LandsHere(plan) && LandPlan(n, i, plan, env).Failed?
    ensures var m := LandPlan(n, i, plan, env).node;
      m.workers == n.workers && m.open == n.open && m.replayed == n.replayed && (env.luck(i).None? ==> m.repo == n.repo)
  {
    hide Try, ChangeToLand, Valid, Reap;
    var c := ChangeToLand(n, i, plan, env);
    if c.Some? {
      FaultLeavesRepo(Local(n.repo, n.rows[i].place), Entry(CommitId(c.value), if plan.StartLanding? then RebaseStarted else plan.sub),
                      env.merge, env.luck(i));
    }
  }

  /** What is left of a turn that stops at an error: the issue is quarantined and at rest, its workers
      are as they were, commits were only added and `main` moved forward or not at all; the
      repository differs only if an operation of a landing failed. */
  lemma FailedTurnIsSafe(n: Node, i: Issue, env: Env)
    requires Valid(n.repo) && i in n.rows && !Skipped(n.rows[i].place) && Execute(n, i, PlanFor(n, i), env).Failed?
    ensures var m := RecoverOne(n, i, env);
      && i in m.rows && m.rows[i].place == ERROR && Rested(m, i, env)
      && m.workers == n.workers && m.open == n.open && m.replayed == n.replayed && Forward(n.repo, m.repo)
      && (m.repo != n.repo ==> LandsHere(PlanFor(n, i)) && env.luck(i).Some?)
  {
    TurnAdvancesMain(n, i, env);
    ErrorRests(Execute(n, i, PlanFor(n, i), env).node, i, env);
    hide Rested, Forward, LandPlan, Skipped, PlanFor, Valid;
    if LandsHere(PlanFor(n, i)) { FailedLandPlan(n, i, PlanFor(n, i), env); }
  }

  /** And it can differ: when the write after a rebase fails, the change stays rewritten. */
  lemma RewrittenThenFailed(l: Local, rev: Revset, merge: Merge, c: nat)
    requires Valid(l.repo) && Resolve(l.repo, rev) == Some(c) && !IsAncestor(l.repo.graph, l.repo.main, c)
    ensures Try(l, Begin(rev), merge, Some(UP_TO_REBASE))
         == (Local(Rebase(l.repo, c, l.repo.main, merge), LandingAt(RebaseStarted)), Fault)
  {
    FirstThreeSteps(l, rev, merge, c);
    FailureIsACrash(l, Begin(rev), merge, 3);
    hide Try, Steps, Rebase, Valid, IsAncestor, Resolve;
  }

  /** No other substate is one a landing resumes at. */
  lemma NoEntry(n: Node, i: Issue, env: Env)
    requires Valid(n.repo) && i in n.rows
    ensures Land(n, i, Fault, env) == Failed(n)
  {
    assert n.rows[i].(place := n.rows[i].place) == n.rows[i];
    assert n.rows[i := n.rows[i]] == n.rows;
  }

  class Recoverer {
    var rows: map<Issue, IssueRow>
    var workers: map<Issue, seq<Worker>>
    var repo: Repo
    var open: set<Issue>
    var replayed: seq<(Issue, Worker)>

    constructor (n: Node)
      ensures Now() == n
    {
      rows, workers, repo, open, replayed := n.rows, n.workers, n.repo, n.open, n.replayed;
    }

    function Now(): Node reads this { Node(rows, workers, repo, open, replayed) }

    /** The turn came to what the plan says, or stopped at an error with what the plan had done. */
    ghost predicate Outcome(r: Result, ok: bool)
      reads this
    {
      ok == r.Made? && Now() == r.node
    }

    /** Forget the workspaces of the issue's worker rows beyond the first `keep`, and drop the rows. */
    method ReapBeyond(i: Issue, ws: seq<Worker>, keep: nat)
      requires ws == WorkersOf(Now(), i)
      modifies this`repo, this`workers
      ensures Now() == Reap(old(Now()), i, keep)
    {
      if |ws| <= keep { return; }
      ghost var before := repo;
      for k := keep to |ws|
        invariant ForgetAll(repo, ws[k..]) == ForgetAll(before, ws[keep..])
        invariant workers == old(workers)
      {
        assert ws[k..][0] == ws[k] && ws[k..][1..] == ws[k + 1..];
        repo := Forget(repo, ws[k]);
      }
      workers := workers[i := ws[..keep]];
    }

    method LandingChangeRevset(i: Issue, row: IssueRow, env: Env) returns (c: Option<nat>)
      requires i in rows && rows[i] == row
      ensures c == LandingChange(Now(), i, env)
    {
      hide IsLandingWorkspace;
      for k := 0 to |env.entries|
        invariant LandingChange(Now(), i, env) == ScanFrom(repo, env.entries, k, i, row.round, env.minted)
      {
        var entry := env.entries[k];
        if entry in repo.workspaces && IsLandingWorkspace(entry, i, row.round, env.minted) {
          return Some(repo.workspaces[entry]);
        }
      }
      return None;
    }

    /** Run the landing code for the issue. */
    method LandFrom(i: Issue, change: nat, sub: Substate, env: Env) returns (ok: bool)
      requires Valid(repo) && i in rows
      modifies this`repo, this`rows
      ensures rows.Keys == old(rows.Keys)
      ensures Outcome(Land(old(Now()), i, Entry(CommitId(change), sub), env), ok)
    {
      var lander := new Lander(repo, rows[i].place, env.merge, env.luck(i));
      var out := lander.ResumeFrom(CommitId(change), sub);
      hide Try, Path, Entry, Valid;
      repo := lander.repo;
      rows := rows[i := rows[i].(place := lander.place)];
      ok := !out.LandingError?;
    }

    method SetRowPlace(i: Issue, p: Place)
      requires i in rows
      modifies this`rows
      ensures Now() == SetPlace(old(Now()), i, p)
    {
      rows := rows[i := rows[i].(place := p)];
    }

    /** One issue, from its row and worker rows as they were listed. */
    method RecoverIssue(i: Issue, row: IssueRow, ws: seq<Worker>, env: Env) returns (ok: bool)
      requires Valid(repo) && i in rows && rows[i] == row && ws == WorkersOf(Now(), i)
      modifies this
      ensures rows.Keys == old(rows.Keys)
      ensures Outcome(Execute(old(Now()), i, PlanFor(old(Now()), i), env), ok)
    {
      hide Land, Reap, LandingChange, Valid;
      var plan := PlanRecovery(row.place, ws != [], ws != [] && ws[0].done);
      ok := true;
      match plan
      case NoAction => ReapBeyond(i, ws, 1);
      case CleanCrashedWorker => CleanCrashed(i, ws);
      case ReplayDoneThenRedrive =>
        if ws == [] { return false; }
        ok := ReplayDone(i, ws[0], env);
        if ok { CleanCrashed(i, ws); }
      case ResumeLanding(sub) => ok := Resume(i, row, ws, sub, env);
      case ResumeRemoteLanding(sub) =>
        if !env.crosslink || !env.remote(i) { return false; }
        SetRowPlace(i, PR_OPEN);
        ReapBeyond(i, ws, 1);
      case StartLanding =>
        var change := LandingChangeRevset(i, row, env);
        if change.None? { return false; }
        ok := LandFrom(i, change.value, RebaseStarted, env);
        if ok { ReapBeyond(i, ws, 1); }
      case CompleteAnswerClose =>
        if env.crosslink {
          if !env.tracker(i) { return false; }
          open := open - {i};
        }
        ReapBeyond(i, ws, 1);
      case Unrecoverable => return false;
    }

    /** Post the artifacts of a finished worker, if there is a tracker to post them to. */
    method ReplayDone(i: Issue, w: Worker, env: Env) returns (ok: bool)
      modifies this`replayed
      ensures ok == ReplaysWell(w, env)
      ensures Now() == if ok then Replayed(old(Now()), i, w, env) else old(Now())
    {
      if !env.crosslink { return true; }
      if !env.replays(w) { return false; }
      replayed := replayed + [(i, w)];
      return true;
    }

    method CleanCrashed(i: Issue, ws: seq<Worker>)
      requires i in rows && ws == WorkersOf(Now(), i)
      modifies this
      ensures Now() == SetPlace(Reap(old(Now()), i, 0), i, IMPLEMENTING) && rows.Keys == old(rows.Keys)
    {
      ReapBeyond(i, ws, 0);
      SetRowPlace(i, IMPLEMENTING);
    }

    method Resume(i: Issue, row: IssueRow, ws: seq<Worker>, sub: Substate, env: Env) returns (ok: bool)
      requires Valid(repo) && i in rows && rows[i] == row && ws == WorkersOf(Now(), i)
      modifies this
      ensures rows.Keys == old(rows.Keys)
      ensures Outcome(Execute(old(Now()), i, ResumeLanding(sub), env), ok)
    {
      hide Land, Reap, LandingChange, Valid;
      NoEntry(Now(), i, env);
      ok := true;
      if sub.Merging? {
        ReapBeyond(i, ws, 0);
        SetRowPlace(i, AWAITING_HUMAN);
      } else if sub.BookmarkMovedComplete? {
        SetRowPlace(i, MERGED);
        ReapBeyond(i, ws, 1);
      } else {
        var change := row.landingChange;
        if change.None? { change := LandingChangeRevset(i, row, env); }
        if change.None? { return false; }
        ok := LandFrom(i, change.value, sub, env);
        if ok { ReapBeyond(i, ws, 1); }
      }
    }

    /** The whole pass, over the issues and workers as they were listed at its start. */
    method RecoverWith(order: seq<Issue>, env: Env)
      requires Valid(repo) && Lists(Now(), order)
      modifies this
      ensures Now() == Pass(old(Now()), order, env)
    {
      ghost var before := Now();
      var issues, live := rows, workers;
      for k := 0 to |order|
        invariant Valid(repo) && Lists(Now(), order)
        invariant PassFrom(before, order, 0, env) == PassFrom(Now(), order, k, env)
        invariant forall j :: k <= j < |order| ==> order[j] in issues && rows[order[j]] == issues[order[j]]
        invariant forall j :: k <= j < |order| ==> WorkersOf(Now(), order[j]) == if order[j] in live then live[order[j]] else []
      {
        hide Valid, Execute, WorkersOf, PlanFor, Skipped;
        var i := order[k];
        ghost var n := Now();
        RecoverOneIsValid(n, i, env);
        forall j | k < j < |order| ensures order[j] in n.rows && RecoverOne(n, i, env).rows[order[j]] == n.rows[order[j]]
          && WorkersOf(RecoverOne(n, i, env), order[j]) == WorkersOf(n, order[j])
        {
          WritesOnlyItsOwn(n, i, env, order[j]);
        }
        if !Skipped(issues[i].place) {
          var ok := RecoverIssue(i, issues[i], if i in live then live[i] else [], env);
          if !ok { SetRowPlace(i, ERROR); }
        }
        assert Now() == RecoverOne(n, i, env);
      }
    }
  }
}
