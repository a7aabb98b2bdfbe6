/** Remote-mode landing: push the issue's branch and open a pull request for it, one durable write or
    remote call at a time, with every call able to fail and the process able to die in between. */
module RemoteLanding {
  import opened Common
  import opened State
  import opened Text
  import opened Branch

  datatype Pr = Pr(head: string, url: string)

  /** Local bookmarks, branches on the remote, pull requests (opened ones stay open), and the
      pr-open events in the trail. */
  datatype Hub = Hub(bookmarks: map<string, nat>, branches: map<string, nat>, prs: seq<Pr>, trail: seq<Pr>)

  /** A fresh landing points the branch at the reviewed commit; a resume only knows the branch. */
  datatype Target = Reviewed(commit: nat) | TheBranch

  datatype Pc =
    | Begin(target: Target)
    | Point(target: Target)
    | Push
    | Pushed
    | Find
    | Open
    | Record(url: string)
    | Rederive
    | Finish(url: string)
    | Announce(url: string)
    | Reap(url: string)
    | Done(url: string)
    | Fault

  /** How a call outside the process goes: it can fail before its effect or after it. */
  datatype How = Works | Fails | LosesReply

  function FindPr(prs: seq<Pr>, head: string): (url: Option<string>)
    ensures url.Some? ==> Pr(head, url.value) in prs
    ensures url.None? ==> forall k :: 0 <= k < |prs| ==> prs[k].head != head
  {
    if prs == [] then None
    else if prs[0].head == head then Some(prs[0].url)
    else FindPr(prs[1..], head)
  }

  /** One operation; `url` is what the remote answers if it creates a pull request. */
  function Step(hub: Hub, place: Place, branch: string, pc: Pc, how: How, url: string): (Hub, Place, Pc) {
    if how.Fails? then (hub, place, Fault)
    else
      var (h, p, next) := Effect(hub, place, branch, pc, url);
      (h, p, if how.LosesReply? then Fault else next)
  }

  function Effect(hub: Hub, place: Place, branch: string, pc: Pc, url: string): (Hub, Place, Pc) {
    match pc
    case Begin(target) => (hub, LandingAt(PushStarted), Point(target))
    case Point(Reviewed(commit)) => (hub.(bookmarks := hub.bookmarks[branch := commit]), place, Push)
    case Point(TheBranch) => (hub, place, if branch in hub.bookmarks then Push else Fault)
    case Push =>
      if branch in hub.bookmarks then
        (hub.(branches := hub.branches[branch := hub.bookmarks[branch]]), place, Pushed)
      else (hub, place, Fault)
    case Pushed => (hub, LandingAt(PushDonePrPending), Find)
    case Find =>
      (match FindPr(hub.prs, branch) case None => (hub, place, Open) case Some(u) => (hub, place, Record(u)))
    case Open => (hub.(prs := hub.prs + [Pr(branch, url)]), place, Record(url))
    case Record(u) => (hub, LandingAt(PrCreated), Finish(u))
    case Rederive =>
      (match FindPr(hub.prs, branch) case None => (hub, place, Fault) case Some(u) => (hub, place, Finish(u)))
    case Finish(u) => (hub, PR_OPEN, Announce(u))
    case Announce(u) => (hub.(trail := hub.trail + [Pr(branch, u)]), place, Reap(u))
    case Reap(u) => (hub.(bookmarks := hub.bookmarks - {branch}), place, Done(u))
    case _ => (hub, place, pc)
  }

  predicate Stopped(pc: Pc) {
    pc.Done? || pc.Fault?
  }

  /** The `resume_remote_from` dispatch; recovery passes the branch itself as the change. */
  function Entry(target: Target, from: Substate): Pc {
    match from
    case PushStarted => Begin(target)
    case PushDonePrPending => Find
    case PrCreated => Rederive
    case _ => Fault
  }

  function Rank(pc: Pc): nat {
    match pc
    case Begin(_) => 10
    case Point(_) => 9
    case Push => 8
    case Pushed => 7
    case Find => 6
    case Open => 5
    case Record(_) => 4
    case Rederive => 4
    case Finish(_) => 3
    case Announce(_) => 2
    case Reap(_) => 1
    case _ => 0
  }

  /** Every state an undisturbed landing passes through, one per operation, and where it ends. */
  function Path(hub: Hub, place: Place, branch: string, pc: Pc, url: string): (r: (seq<(Hub, Place)>, Pc))
    ensures Stopped(r.1)
    decreases Rank(pc)
  {
    if Stopped(pc) then ([], pc)
    else
      var (h, p, next) := Effect(hub, place, branch, pc, url);
      var (rest, end) := Path(h, p, branch, next, url);
      ([(h, p)] + rest, end)
  }

  lemma Unroll(hub: Hub, place: Place, branch: string, pc: Pc, url: string)
    requires !Stopped(pc)
    ensures var (h, p, next) := Effect(hub, place, branch, pc, url);
      Path(hub, place, branch, pc, url) == ([(h, p)] + Path(h, p, branch, next, url).0, Path(h, p, branch, next, url).1)
  {
  }

  lemma PathStops(hub: Hub, place: Place, branch: string, pc: Pc, url: string)
    requires Stopped(pc)
    ensures Path(hub, place, branch, pc, url) == ([], pc)
  {
  }

  /** The machine as it runs when every call works; `path` records the state after every operation. */
  class RemoteLander {
    var hub: Hub
    var place: Place
    ghost var path: seq<(Hub, Place)>

    constructor (hub: Hub, place: Place)
      ensures this.hub == hub && this.place == place && path == []
    {
      this.hub, this.place, path := hub, place, [];
    }

    ghost predicate Ran(was: seq<(Hub, Place)>, hub: Hub, place: Place, branch: string, pc: Pc, url: string, out: Option<string>)
      reads this
    {
      var (states, end) := Path(hub, place, branch, pc, url);
      && path == was + states
      && (states != [] ==> (this.hub, this.place) == states[|states| - 1])
      && out == if end.Done? then Some(end.url) else None
    }

    method SetPlace(p: Place)
      modifies this
      ensures place == p && hub == old(hub) && path == old(path) + [(hub, place)]
    {
      place := p;
      path := path + [(hub, place)];
    }

    method SetHub(h: Hub)
      modifies this
      ensures hub == h && place == old(place) && path == old(path) + [(hub, place)]
    {
      hub := h;
      path := path + [(hub, place)];
    }

    method ResumeRemoteFrom(branch: string, target: Target, from: Substate, url: string) returns (out: Option<string>)
      modifies this
      ensures Ran(old(path), old(hub), old(place), branch, Entry(target, from), url, out)
    {
      match from
      case PushStarted => out := PushStep(branch, target, url);
      case PushDonePrPending => out := PrStep(branch, url);
      case PrCreated =>
        Unroll(hub, place, branch, Rederive, url);
        var found := FindPr(hub.prs, branch);
        path := path + [(hub, place)];
        if found.None? { return None; }
        out := CompletePrOpen(branch, found.value, url);
      case _ => out := None;
    }

    method PushStep(branch: string, target: Target, url: string) returns (out: Option<string>)
      modifies this
      ensures Ran(old(path), old(hub), old(place), branch, Begin(target), url, out)
    {
      hide Path;
      Unroll(hub, place, branch, Begin(target), url);
      SetPlace(LandingAt(PushStarted));
      Unroll(hub, place, branch, Point(target), url);
      if target.Reviewed? {
        SetHub(hub.(bookmarks := hub.bookmarks[branch := target.commit]));
      } else {
        path := path + [(hub, place)];
        if branch !in hub.bookmarks {
          PathStops(hub, place, branch, Fault, url);
          return None;
        }
      }
      Unroll(hub, place, branch, Push, url);
      out := PushBranch(branch, url);
    }

    method PushBranch(branch: string, url: string) returns (out: Option<string>)
      requires branch in hub.bookmarks
      modifies this
      ensures Ran(old(path), old(hub), old(place), branch, Push, url, out)
    {
      hide Path;
      Unroll(hub, place, branch, Push, url);
      SetHub(hub.(branches := hub.branches[branch := hub.bookmarks[branch]]));
      Unroll(hub, place, branch, Pushed, url);
      SetPlace(LandingAt(PushDonePrPending));
      Unroll(hub, place, branch, Find, url);
      out := PrStep(branch, url);
    }

    /** An open pull request for the branch is adopted; only when there is none is one created. */
    method PrStep(branch: string, url: string) returns (out: Option<string>)
      modifies this
      ensures Ran(old(path), old(hub), old(place), branch, Find, url, out)
    {
      hide Path;
      Unroll(hub, place, branch, Find, url);
      var found := FindPr(hub.prs, branch);
      path := path + [(hub, place)];
      if found.None? {
        Unroll(hub, place, branch, Open, url);
        SetHub(hub.(prs := hub.prs + [Pr(branch, url)]));
        found := Some(url);
      }
      Unroll(hub, place, branch, Record(found.value), url);
      SetPlace(LandingAt(PrCreated));
      Unroll(hub, place, branch, Finish(found.value), url);
      out := CompletePrOpen(branch, found.value, url);
    }

    method CompletePrOpen(branch: string, prUrl: string, url: string) returns (out: Option<string>)
      modifies this
      ensures Ran(old(path), old(hub), old(place), branch, Finish(prUrl), url, out)
    {
      Unroll(hub, place, branch, Finish(prUrl), url);
      SetPlace(PR_OPEN);
      Unroll(hub, place, branch, Announce(prUrl), url);
      SetHub(hub.(trail := hub.trail + [Pr(branch, prUrl)]));
      Unroll(hub, place, branch, Reap(prUrl), url);
      SetHub(hub.(bookmarks := hub.bookmarks - {branch}));
      return Some(prUrl);
    }
  }

  // --- any number of issues -------------------------------------------------

  datatype Task = Task(branch: string, pc: Pc)

  /** `reviewed` is the commit each issue converged on; `silenced` remembers, for the proofs only,
      whose process died or failed after the issue was recorded at pr-open and before the event was
      written. */
  datatype World = World(hub: Hub, rows: map<nat, Place>, running: map<nat, Task>, reviewed: map<nat, nat>, silenced: set<nat>)

  datatype Event =
    | Operate(issue: nat, how: How, url: string)
    | Start(issue: nat, title: string)
    | Resume(issue: nat, title: string)
    | Write(issue: nat, place: Place)
    | MoveMain(commit: nat)
    | Unrelated(pr: Pr)
    | Crash

  /** A branch of this issue, under any title it has had. */
  ghost predicate BranchOf(i: nat, branch: string) {
    exists title: string :: branch == Name(Digits(i), title)
  }

  predicate IsRemote(p: Place) {
    p == LandingAt(PushStarted) || p == LandingAt(PushDonePrPending) || p == LandingAt(PrCreated) || p.phase.PrOpen?
  }

  /** Nothing drives or resumes the issue from here any more. */
  predicate Over(p: Place) {
    p.phase.PrOpen? || p.phase.OrchestratorError?
  }

  /** What the rest of the orchestrator may make of a row: answering a peer rewrites the substate of an
      issue at pr-open, and recovery may quarantine it, for good. */
  predicate CanWrite(p: Place, q: Place) {
    && (IsRemote(q) ==> p.phase.PrOpen? && q.phase.PrOpen?)
    && (Over(p) ==> Over(q))
  }

  predicate Idle(w: World, i: nat) {
    i in w.rows && (i !in w.running || Stopped(w.running[i].pc))
  }

  ghost predicate Enabled(w: World, e: Event) {
    match e
    case Operate(i, _, _) => i in w.running && i in w.rows
    case Start(i, _) => Idle(w, i) && i in w.reviewed && !IsRemote(w.rows[i]) && !Over(w.rows[i])
    case Resume(i, _) => Idle(w, i) && w.rows[i].phase.Landing? && w.rows[i].column.Token?
    case Write(i, place) => Idle(w, i) && CanWrite(w.rows[i], place)
    case MoveMain(_) => true
    case Unrelated(pr) => forall i :: !BranchOf(i, pr.head)
    case Crash => true
  }

  predicate Silences(w: World, i: nat) {
    i in w.running && w.running[i].pc.Announce?
  }

  function After(w: World, e: Event): World
    requires Enabled(w, e)
  {
    match e
    case Operate(i, how, url) =>
      var t := w.running[i];
      var (hub, place, pc) := Step(w.hub, w.rows[i], t.branch, t.pc, how, url);
      w.(hub := hub, rows := w.rows[i := place], running := w.running[i := Task(t.branch, pc)],
         silenced := w.silenced + (if (t.pc.Finish? && how.LosesReply?) || (t.pc.Announce? && how.Fails?) then {i} else {}))
    case Start(i, title) => w.(running := w.running[i := Task(Name(Digits(i), title), Begin(Reviewed(w.reviewed[i])))])
    case Resume(i, title) => w.(running := w.running[i := Task(Name(Digits(i), title), Entry(TheBranch, w.rows[i].column.sub))])
    case Write(i, place) => w.(rows := w.rows[i := place])
    case MoveMain(commit) => w.(hub := w.hub.(bookmarks := w.hub.bookmarks["main" := commit]))
    case Unrelated(pr) => w.(hub := w.hub.(prs := w.hub.prs + [pr]))
    case Crash => w.(running := map[], silenced := w.silenced + (set i | i in w.running && Silences(w, i)))
  }

  /** One pull request per head, over the issues' own branches. */
  ghost predicate OnePerHead(prs: seq<Pr>) {
    forall j, k :: 0 <= j < k < |prs| && prs[j].head == prs[k].head ==> forall i :: !BranchOf(i, prs[j].head)
  }

  ghost predicate HasPr(hub: Hub, i: nat) {
    exists k :: 0 <= k < |hub.prs| && BranchOf(i, hub.prs[k].head)
  }

  ghost predicate HasBranch(hub: Hub, i: nat) {
    exists branch :: branch in hub.branches && BranchOf(i, branch)
  }

  ghost predicate Announced(hub: Hub, i: nat) {
    exists k :: 0 <= k < |hub.trail| && BranchOf(i, hub.trail[k].head)
  }

  /** The push has been made. */
  predicate AfterPush(pc: Pc) {
    pc.Pushed? || pc.Find? || pc.Open? || pc.Record? || pc.Rederive? || pc.Finish?
  }

  /** What holds at each point of a task. */
  ghost predicate InFlight(w: World, i: nat, t: Task) {
    && BranchOf(i, t.branch)
    && (AfterPush(t.pc) ==> HasBranch(w.hub, i))
    && match t.pc
       case Begin(Reviewed(c)) => i in w.reviewed && c == w.reviewed[i]
       case Point(Reviewed(c)) => i in w.reviewed && c == w.reviewed[i]
       case Open => forall k :: 0 <= k < |w.hub.prs| ==> w.hub.prs[k].head != t.branch
       case Record(u) => Pr(t.branch, u) in w.hub.prs
       case Finish(u) => Pr(t.branch, u) in w.hub.prs
       case Announce(u) => Pr(t.branch, u) in w.hub.prs
       case Reap(u) => Pr(t.branch, u) in w.hub.prs && Announced(w.hub, i)
       case Done(u) => Pr(t.branch, u) in w.hub.prs && Announced(w.hub, i)
       case _ => true
  }

  /** The issue's branch, here and on the remote, is at the commit that was reviewed. */
  ghost predicate AtReviewed(w: World, i: nat, branch: string) {
    && (branch in w.hub.bookmarks ==> i in w.reviewed && w.hub.bookmarks[branch] == w.reviewed[i])
    && (branch in w.hub.branches ==> i in w.reviewed && w.hub.branches[branch] == w.reviewed[i])
  }

  /** The row has not been set to pr-open yet. */
  predicate BeforeOpen(pc: Pc) {
    !Stopped(pc) && !pc.Announce? && !pc.Reap?
  }

  ghost predicate RowHolds(w: World, i: nat)
    requires i in w.rows
  {
    && (IsRemote(w.rows[i]) && w.rows[i] != LandingAt(PushStarted) ==> HasBranch(w.hub, i))
    && (w.rows[i] == LandingAt(PrCreated) || w.rows[i].phase.PrOpen? ==> HasPr(w.hub, i))
    && (w.rows[i].phase.PrOpen? ==> Announced(w.hub, i) || Silences(w, i) || i in w.silenced)
    && (Announced(w.hub, i) || Silences(w, i) || i in w.silenced ==> Over(w.rows[i]))
    && (Announced(w.hub, i) ==> !Silences(w, i) && i !in w.silenced) && !(Silences(w, i) && i in w.silenced)
    && (i in w.running && BeforeOpen(w.running[i].pc) ==> !Over(w.rows[i]))
  }

  ghost predicate Orderly(w: World) {
    && OnePerHead(w.hub.prs)
    && (forall i :: i in w.running ==> InFlight(w, i, w.running[i]))
    && (forall i, branch :: BranchOf(i, branch) ==> AtReviewed(w, i, branch))
    && (forall i :: i in w.rows ==> RowHolds(w, i))
    && (forall pr :: pr in w.hub.trail ==> pr in w.hub.prs)
  }

  lemma BranchesAreDistinct(i: nat, j: nat, branch: string)
    requires BranchOf(i, branch) && BranchOf(j, branch)
    ensures i == j
  {
    var a: string :| branch == Name(Digits(i), a);
    var b: string :| branch == Name(Digits(j), b);
    NamesAreDistinct(i, j, a, b);
  }

  lemma BranchIsNotMain(i: nat, branch: string)
    requires BranchOf(i, branch)
    ensures branch != "main"
  {
    var title: string :| branch == Name(Digits(i), title);
    NameIsNotMain(Digits(i), title);
  }

  /** Branches on the remote, pull requests and events are only ever added. */
  lemma GrowthKeeps(h: Hub, g: Hub, i: nat)
    requires h.prs <= g.prs && h.trail <= g.trail && h.branches.Keys <= g.branches.Keys
    ensures HasBranch(h, i) ==> HasBranch(g, i)
    ensures HasPr(h, i) ==> HasPr(g, i)
    ensures Announced(h, i) ==> Announced(g, i)
  {
    if HasBranch(h, i) {
      var branch :| branch in h.branches && BranchOf(i, branch);
      assert branch in g.branches;
    }
    if HasPr(h, i) {
      var k :| 0 <= k < |h.prs| && BranchOf(i, h.prs[k].head);
      assert g.prs[k] == h.prs[k];
    }
    if Announced(h, i) {
      var k :| 0 <= k < |h.trail| && BranchOf(i, h.trail[k].head);
      assert g.trail[k] == h.trail[k];
    }
  }

  lemma HasItsPr(h: Hub, i: nat, branch: string, url: string)
    requires Pr(branch, url) in h.prs && BranchOf(i, branch)
    ensures HasPr(h, i)
  {
    var k :| 0 <= k < |h.prs| && h.prs[k] == Pr(branch, url);
    assert BranchOf(i, h.prs[k].head);
  }

  lemma StepGrows(w: World, i: nat, how: How, url: string)
    requires i in w.running && i in w.rows
    ensures var v := After(w, Operate(i, how, url));
      w.hub.prs <= v.hub.prs <= w.hub.prs + [Pr(w.running[i].branch, url)]
      && w.hub.trail <= v.hub.trail && w.hub.branches.Keys <= v.hub.branches.Keys
      && (v.hub.prs != w.hub.prs ==> w.running[i].pc.Open?)
  {
  }

  lemma OwnFlight(w: World, i: nat)
    requires Orderly(w) && i in w.running && i in w.rows
    ensures InFlight(w, i, w.running[i]) && RowHolds(w, i)
  {
    hide InFlight, RowHolds;
  }

  /** The issue's own task moves from one point that holds to another. */
  lemma OperateKeepsOwn(w: World, i: nat, how: How, url: string)
    requires Orderly(w) && i in w.running && i in w.rows
    ensures var v := After(w, Operate(i, how, url));
      InFlight(v, i, v.running[i]) && RowHolds(v, i)
  {
    OwnFlight(w, i);
    OwnFlightMoves(w, i, how, url);
    OwnRowMoves(w, i, how, url);
  }

  lemma OwnFlightMoves(w: World, i: nat, how: How, url: string)
    requires i in w.running && i in w.rows && InFlight(w, i, w.running[i])
    ensures var v := After(w, Operate(i, how, url)); InFlight(v, i, v.running[i])
  {
    hide BranchOf;
    var v, t := After(w, Operate(i, how, url)), w.running[i];
    StepGrows(w, i, how, url);
    GrowthKeeps(w.hub, v.hub, i);
    if t.pc.Announce? && !how.Fails? { AnnouncesIt(v.hub, i, t.branch, t.pc.url); }
    if t.pc.Push? && t.branch in v.hub.branches { assert HasBranch(v.hub, i); }
    hide HasBranch, HasPr, Announced;
  }

  lemma OwnRowMoves(w: World, i: nat, how: How, url: string)
    requires i in w.running && i in w.rows && InFlight(w, i, w.running[i]) && RowHolds(w, i)
    ensures RowHolds(After(w, Operate(i, how, url)), i)
  {
    hide BranchOf, HasBranch, HasPr, Announced;
    var v, t := After(w, Operate(i, how, url)), w.running[i];
    StepGrows(w, i, how, url);
    GrowthKeeps(w.hub, v.hub, i);
    if v.hub.trail == w.hub.trail { SameNews(w.hub, v.hub, i); }
    if t.pc.Record? || t.pc.Finish? || t.pc.Announce? { HasItsPr(v.hub, i, t.branch, t.pc.url); }
    if t.pc.Announce? && !how.Fails? { AnnouncesIt(v.hub, i, t.branch, t.pc.url); }
  }

  lemma SameNews(h: Hub, g: Hub, i: nat)
    requires h.trail == g.trail
    ensures Announced(h, i) <==> Announced(g, i)
  {
    hide BranchOf;
  }

  lemma AnnouncesIt(h: Hub, i: nat, branch: string, url: string)
    requires |h.trail| > 0 && h.trail[|h.trail| - 1] == Pr(branch, url) && BranchOf(i, branch)
    ensures Announced(h, i)
  {
    assert BranchOf(i, h.trail[|h.trail| - 1].head);
  }

  /** An event announces one issue only. */
  lemma NotOthersNews(w: World, i: nat, how: How, url: string, j: nat)
    requires i in w.running && i in w.rows && j != i && BranchOf(i, w.running[i].branch)
    ensures Announced(After(w, Operate(i, how, url)).hub, j) ==> Announced(w.hub, j)
  {
    hide BranchOf;
    var g := After(w, Operate(i, how, url)).hub;
    if Announced(g, j) {
      var k :| 0 <= k < |g.trail| && BranchOf(j, g.trail[k].head);
      if k == |w.hub.trail| {
        BranchesAreDistinct(i, j, w.running[i].branch);
      } else {
        assert BranchOf(j, w.hub.trail[k].head);
      }
    }
  }

  lemma OthersFlight(w: World, i: nat, how: How, url: string, j: nat)
    requires Orderly(w) && i in w.running && i in w.rows && j != i && j in w.running
    ensures var v := After(w, Operate(i, how, url)); j in v.running && InFlight(v, j, v.running[j])
  {
    hide BranchOf, HasBranch, HasPr, Announced;
    var v := After(w, Operate(i, how, url));
    StepGrows(w, i, how, url);
    GrowthKeeps(w.hub, v.hub, j);
    assert InFlight(w, j, w.running[j]) && InFlight(w, i, w.running[i]);
    if w.running[i].branch == w.running[j].branch { BranchesAreDistinct(i, j, w.running[i].branch); }
  }

  lemma OthersRow(w: World, i: nat, how: How, url: string, j: nat)
    requires Orderly(w) && i in w.running && i in w.rows && j != i && j in w.rows
    ensures var v := After(w, Operate(i, how, url)); j in v.rows && RowHolds(v, j)
  {
    hide BranchOf, HasBranch, HasPr, Announced, OnePerHead, AtReviewed;
    StepGrows(w, i, how, url);
    assert InFlight(w, i, w.running[i]) && RowHolds(w, j);
    GrowthKeeps(w.hub, After(w, Operate(i, how, url)).hub, j);
    NotOthersNews(w, i, how, url, j);
  }

  lemma OperateKeepsHeads(w: World, i: nat, how: How, url: string)
    requires Orderly(w) && i in w.running && i in w.rows
    ensures var v := After(w, Operate(i, how, url));
      OnePerHead(v.hub.prs) && forall pr :: pr in v.hub.trail ==> pr in v.hub.prs
  {
    hide BranchOf;
    StepGrows(w, i, how, url);
    assert InFlight(w, i, w.running[i]);
  }

  lemma OperateKeepsReviewed(w: World, i: nat, how: How, url: string, j: nat, branch: string)
    requires Orderly(w) && i in w.running && i in w.rows && BranchOf(j, branch)
    ensures AtReviewed(After(w, Operate(i, how, url)), j, branch)
  {
    hide BranchOf;
    assert AtReviewed(w, j, branch) && InFlight(w, i, w.running[i]);
    if w.running[i].branch == branch { BranchesAreDistinct(i, j, branch); }
  }

  /** Landing a branch never writes `main`. */
  lemma OperateLeavesMain(w: World, i: nat, how: How, url: string)
    requires Orderly(w) && i in w.running && i in w.rows
    ensures var v := After(w, Operate(i, how, url));
      && ("main" in v.hub.bookmarks <==> "main" in w.hub.bookmarks)
      && ("main" in v.hub.bookmarks ==> v.hub.bookmarks["main"] == w.hub.bookmarks["main"])
      && ("main" in v.hub.branches <==> "main" in w.hub.branches)
      && ("main" in v.hub.branches ==> v.hub.branches["main"] == w.hub.branches["main"])
  {
    hide BranchOf;
    assert InFlight(w, i, w.running[i]);
    BranchIsNotMain(i, w.running[i].branch);
  }

  lemma OrderIsKept(w: World, e: Event)
    requires Orderly(w) && Enabled(w, e)
    ensures Orderly(After(w, e))
  {
    match e
    case Operate(i, how, url) => OperateKeepsOrder(w, i, how, url);
    case _ => OthersKeepOrder(w, e);
  }

  lemma OperateKeepsOrder(w: World, i: nat, how: How, url: string)
    requires Orderly(w) && Enabled(w, Operate(i, how, url))
    ensures Orderly(After(w, Operate(i, how, url)))
  {
    hide BranchOf, Step, InFlight, RowHolds, AtReviewed, OnePerHead;
    var v := After(w, Operate(i, how, url));
    OperateKeepsOwn(w, i, how, url);
    OperateKeepsHeads(w, i, how, url);
    forall j | j != i
      ensures j in v.running ==> InFlight(v, j, v.running[j])
      ensures j in v.rows ==> RowHolds(v, j)
    {
      if j in w.running { OthersFlight(w, i, how, url, j); }
      if j in w.rows { OthersRow(w, i, how, url, j); }
    }
    forall j, branch | BranchOf(j, branch) ensures AtReviewed(v, j, branch) {
      OperateKeepsReviewed(w, i, how, url, j, branch);
    }
  }

  lemma FlightStays(w: World, v: World, i: nat, t: Task)
    requires InFlight(w, i, t) && v.reviewed == w.reviewed
    requires v.hub.trail == w.hub.trail && w.hub.prs <= v.hub.prs && v.hub.branches == w.hub.branches
    requires forall k :: |w.hub.prs| <= k < |v.hub.prs| ==> v.hub.prs[k].head != t.branch
    ensures InFlight(v, i, t)
  {
    hide BranchOf;
    GrowthKeeps(w.hub, v.hub, i);
  }

  lemma RowStays(w: World, v: World, i: nat)
    requires i in w.rows && i in v.rows && RowHolds(w, i)
    requires v.rows[i] == w.rows[i] || CanWrite(w.rows[i], v.rows[i])
    requires v.hub.trail == w.hub.trail && w.hub.prs <= v.hub.prs && v.hub.branches == w.hub.branches
    requires Silences(w, i) || i in w.silenced <==> Silences(v, i) || i in v.silenced
    requires !(Silences(v, i) && i in v.silenced)
    requires i in v.running && BeforeOpen(v.running[i].pc) ==> !Over(v.rows[i])
    ensures RowHolds(v, i)
  {
    hide BranchOf;
    GrowthKeeps(w.hub, v.hub, i);
  }

  lemma TaskBegins(w: World, e: Event)
    requires Enabled(w, e) && (e.Start? || e.Resume?) && RowHolds(w, e.issue)
    ensures InFlight(After(w, e), e.issue, After(w, e).running[e.issue])
  {
    hide BranchOf, Name, Digits;
    NameIsABranch(e.issue, e.title);
  }

  lemma OthersKeepFlight(w: World, e: Event, i: nat)
    requires Orderly(w) && Enabled(w, e) && !e.Operate?
    ensures var v := After(w, e); i in v.running ==> InFlight(v, i, v.running[i])
  {
    hide BranchOf, Name, Digits;
    var v := After(w, e);
    if i in v.running {
      if (e.Start? || e.Resume?) && e.issue == i {
        TaskBegins(w, e);
      } else {
        HeldFlight(w, i);
        hide Orderly, InFlight;
        if e.Unrelated? { assert !BranchOf(i, e.pr.head); }
        FlightStays(w, v, i, w.running[i]);
      }
    }
  }

  lemma HeldFlight(w: World, i: nat)
    requires Orderly(w) && i in w.running
    ensures InFlight(w, i, w.running[i]) && BranchOf(i, w.running[i].branch)
  {
    hide BranchOf;
  }

  lemma OthersKeepRow(w: World, e: Event, i: nat)
    requires Orderly(w) && Enabled(w, e) && !e.Operate?
    ensures var v := After(w, e); i in v.rows ==> RowHolds(v, i)
  {
    hide BranchOf, Name, Digits;
    var v := After(w, e);
    if i in v.rows {
      assert i in w.rows && RowHolds(w, i);
      hide Orderly, RowHolds;
      RowStays(w, v, i);
    }
  }

  lemma OthersKeepReviewed(w: World, e: Event, i: nat, branch: string)
    requires Orderly(w) && Enabled(w, e) && !e.Operate? && BranchOf(i, branch)
    ensures AtReviewed(After(w, e), i, branch)
  {
    hide BranchOf, Name, Digits;
    assert AtReviewed(w, i, branch);
    BranchIsNotMain(i, branch);
  }

  lemma OthersKeepHeads(w: World, e: Event)
    requires Orderly(w) && Enabled(w, e) && !e.Operate?
    ensures OnePerHead(After(w, e).hub.prs) && forall pr :: pr in After(w, e).hub.trail ==> pr in After(w, e).hub.prs
  {
    hide BranchOf, Name, Digits;
  }

  lemma OthersKeepOrder(w: World, e: Event)
    requires Orderly(w) && Enabled(w, e) && !e.Operate?
    ensures Orderly(After(w, e))
  {
    var v := After(w, e);
    OthersKeepHeads(w, e);
    forall i, branch | BranchOf(i, branch) ensures AtReviewed(v, i, branch) {
      OthersKeepReviewed(w, e, i, branch);
    }
    forall i ensures i in v.running ==> InFlight(v, i, v.running[i]) {
      OthersKeepFlight(w, e, i);
    }
    forall i ensures i in v.rows ==> RowHolds(v, i) {
      OthersKeepRow(w, e, i);
    }
    hide *;
  }

  lemma NameIsABranch(i: nat, title: string)
    ensures BranchOf(i, Name(Digits(i), title))
  {
  }

  ghost predicate IsRun(ws: seq<World>, es: seq<Event>) {
    && |ws| == |es| + 1 && Orderly(ws[0])
    && forall k :: 0 <= k < |es| ==> Enabled(ws[k], es[k]) && ws[k + 1] == After(ws[k], es[k])
  }

  lemma {:induction false} OrderHolds(ws: seq<World>, es: seq<Event>, n: nat)
    requires IsRun(ws, es) && n < |ws|
    ensures Orderly(ws[n])
    decreases n
  {
    hide Orderly, Enabled, Name, Digits;
    if n > 0 {
      OrderHolds(ws, es, n - 1);
      OrderIsKept(ws[n - 1], es[n - 1]);
      assert ws[n - 1 + 1] == After(ws[n - 1], es[n - 1]);
    }
  }

  /** No landing has begun. */
  ghost predicate Fresh(w: World) {
    && w.running == map[] && w.hub.trail == [] && w.silenced == {}
    && (forall i :: i in w.rows ==> !IsRemote(w.rows[i]))
    && forall i, branch :: BranchOf(i, branch) ==>
         branch !in w.hub.bookmarks && branch !in w.hub.branches && forall k :: 0 <= k < |w.hub.prs| ==> w.hub.prs[k].head != branch
  }

  lemma FreshIsOrderly(w: World)
    requires Fresh(w)
    ensures Orderly(w)
  {
  }

  /** Remote landing over every run of any number of issues, with failing calls, crashes, resumes and
      retitled issues: at most one pull request per branch; an issue past its push has a branch on
      the remote, and all its branches are at the reviewed commit; an issue at pr-open has a pull
      request, which was announced unless the process stopped between recording the phase and
      writing the event. */
  lemma OnePullRequestPerHead(ws: seq<World>, es: seq<Event>, n: nat, i: nat)
    requires IsRun(ws, es) && n < |ws|
    ensures OnePerHead(ws[n].hub.prs)
    ensures i in ws[n].rows && IsRemote(ws[n].rows[i]) && ws[n].rows[i] != LandingAt(PushStarted) ==> HasBranch(ws[n].hub, i)
    ensures i in ws[n].rows && ws[n].rows[i].phase.PrOpen? ==>
      HasPr(ws[n].hub, i) && (Announced(ws[n].hub, i) <==> !Silences(ws[n], i) && i !in ws[n].silenced)
    ensures forall branch :: BranchOf(i, branch) ==> AtReviewed(ws[n], i, branch)
    ensures forall pr :: pr in ws[n].hub.trail ==> pr in ws[n].hub.prs
  {
    OrderHolds(ws, es, n);
    if i in ws[n].rows { assert RowHolds(ws[n], i); }
  }

  /** The run on which a pull request is open and nothing ever says so: the process dies between the
      write of the phase and the event. */
  lemma UnannouncedPullRequest(i: nat, title: string, commit: nat, url: string) returns (ws: seq<World>, es: seq<Event>)
    ensures IsRun(ws, es) && Fresh(ws[0])
    ensures var w := ws[|ws| - 1];
      i in w.rows && w.rows[i] == PR_OPEN && HasPr(w.hub, i) && !Announced(w.hub, i) && w.running == map[]
  {
    hide Name, Digits, BranchOf, Orderly;
    var w := World(Hub(map[], map[], [], []), map[i := CONVERGED], map[], map[i := commit], {});
    FreshIsOrderly(w);
    ws, es := [w], [];
    for k := 0 to 10
      invariant |ws| == k + 1 && |es| == k && IsRun(ws, es) && ws[0] == w
      invariant OnWay(ws[k], i, Name(Digits(i), title), commit, url, k)
    {
      hide OnWay, After, Enabled, IsRun, WayEvent;
      OnWayStep(ws[k], i, title, commit, url, k);
      RunGoesOn(ws, es, WayEvent(i, title, url, k));
      ws, es := ws + [After(ws[k], WayEvent(i, title, url, k))], es + [WayEvent(i, title, url, k)];
    }
    NameIsABranch(i, title);
    hide IsRun;
    HasItsPr(ws[10].hub, i, Name(Digits(i), title), url);
  }

  lemma RunGoesOn(ws: seq<World>, es: seq<Event>, e: Event)
    requires IsRun(ws, es) && Enabled(ws[|es|], e)
    ensures IsRun(ws + [After(ws[|es|], e)], es + [e])
  {
    hide Enabled, After, Orderly;
    var vs, fs := ws + [After(ws[|es|], e)], es + [e];
    forall k | 0 <= k < |fs| ensures Enabled(vs[k], fs[k]) && vs[k + 1] == After(vs[k], fs[k]) {
      assert k < |es| ==> vs[k] == ws[k] && vs[k + 1] == ws[k + 1] && fs[k] == es[k];
    }
  }

  function WayEvent(i: nat, title: string, url: string, k: nat): Event {
    if k == 0 then Start(i, title) else if k == 9 then Crash else Operate(i, Works, url)
  }

  lemma OnWayStep(w: World, i: nat, title: string, commit: nat, url: string, k: nat)
    requires k < 10 && OnWay(w, i, Name(Digits(i), title), commit, url, k)
    ensures Enabled(w, WayEvent(i, title, url, k))
    ensures OnWay(After(w, WayEvent(i, title, url, k)), i, Name(Digits(i), title), commit, url, k + 1)
  {
    hide Name, Digits, BranchOf;
  }

  /** The states of that run, one by one. */
  predicate OnWay(w: World, i: nat, branch: string, commit: nat, url: string, k: nat) {
    && w.reviewed == map[i := commit] && w.hub.trail == [] && i in w.rows
    && (0 < k < 10 ==> i in w.running && w.running[i].branch == branch)
    && match k
       case 0 => w.running == map[] && w.hub == Hub(map[], map[], [], []) && w.rows[i] == CONVERGED
       case 1 => w.running[i].pc == Begin(Reviewed(commit)) && w.hub.prs == []
       case 2 => w.running[i].pc == Point(Reviewed(commit)) && w.hub.prs == []
       case 3 => w.running[i].pc == Push && branch in w.hub.bookmarks && w.hub.prs == []
       case 4 => w.running[i].pc == Pushed && w.hub.prs == []
       case 5 => w.running[i].pc == Find && w.hub.prs == []
       case 6 => w.running[i].pc == Open && w.hub.prs == []
       case 7 => w.running[i].pc == Record(url) && w.hub.prs == [Pr(branch, url)]
       case 8 => w.running[i].pc == Finish(url) && w.hub.prs == [Pr(branch, url)]
       case 9 => w.running[i].pc == Announce(url) && w.hub.prs == [Pr(branch, url)] && w.rows[i] == PR_OPEN
       case _ => w.running == map[] && w.hub.prs == [Pr(branch, url)] && w.rows[i] == PR_OPEN
  }
}
