/** How a remote landing ends, said without its steps, and that a crash does not change it. */
module RemoteEnds {
  import opened Common
  import opened State
  import opened RemoteLanding

  /** Where an undisturbed landing comes to rest. */
  function EndOf(hub: Hub, place: Place, branch: string, pc: Pc, url: string): (Hub, Place, Pc)
    decreases Rank(pc)
  {
    if Stopped(pc) then (hub, place, pc)
    else
      var (h, p, next) := Effect(hub, place, branch, pc, url);
      EndOf(h, p, branch, next, url)
  }

  /** It is the last of the states on its path. */
  lemma {:induction false} PathEnds(hub: Hub, place: Place, branch: string, pc: Pc, url: string)
    ensures var (states, end) := Path(hub, place, branch, pc, url);
      EndOf(hub, place, branch, pc, url)
      == if states == [] then (hub, place, end) else (states[|states| - 1].0, states[|states| - 1].1, end)
    decreases Rank(pc)
  {
    if !Stopped(pc) {
      var (h, p, next) := Effect(hub, place, branch, pc, url);
      PathEnds(h, p, branch, next, url);
      Unroll(hub, place, branch, pc, url);
    }
  }

  predicate HasOpen(prs: seq<Pr>, branch: string) {
    exists k :: 0 <= k < |prs| && prs[k].head == branch
  }

  /** The pull request listed first for the branch. */
  ghost predicate ListedFirst(prs: seq<Pr>, branch: string, url: string) {
    exists k :: 0 <= k < |prs| && prs[k] == Pr(branch, url) && forall j :: 0 <= j < k ==> prs[j].head != branch
  }

  /** An open pull request for the branch is adopted; only without one is one opened. */
  ghost predicate Adopts(was: seq<Pr>, prs: seq<Pr>, branch: string, used: string, url: string) {
    if HasOpen(was, branch) then ListedFirst(was, branch, used) && prs == was
    else used == url && prs == was + [Pr(branch, url)]
  }

  /** At pr-open: the remote branch at the commit, one pull request for it, one event that names it, and
      no bookmark left behind. */
  ghost predicate EndsOpen(was: Hub, hub: Hub, place: Place, pc: Pc, branch: string, commit: Option<nat>, url: string) {
    && place == PR_OPEN && pc.Done?
    && Adopts(was.prs, hub.prs, branch, pc.url, url)
    && hub.branches == (if commit.Some? then was.branches[branch := commit.value] else was.branches)
    && hub.bookmarks == was.bookmarks - {branch}
    && hub.trail == was.trail + [Pr(branch, pc.url)]
  }

  lemma {:induction false} FoundFirst(prs: seq<Pr>, branch: string)
    ensures FindPr(prs, branch).Some? <==> HasOpen(prs, branch)
    ensures FindPr(prs, branch).Some? ==> ListedFirst(prs, branch, FindPr(prs, branch).value)
  {
    if prs != [] && prs[0].head != branch {
      FoundFirst(prs[1..], branch);
      if k :| 0 <= k < |prs| && prs[k].head == branch { assert prs[1..][k - 1].head == branch; }
      if HasOpen(prs[1..], branch) {
        var u := FindPr(prs[1..], branch).value;
        var k :| 0 <= k < |prs| - 1 && prs[1..][k] == Pr(branch, u) && forall j :: 0 <= j < k ==> prs[1..][j].head != branch;
        assert prs[k + 1] == Pr(branch, u);
        forall j | 0 <= j < k + 1 ensures prs[j].head != branch {
          assert j > 0 ==> prs[1..][j - 1] == prs[j];
        }
      }
    }
  }

  lemma EndsFromFinish(hub: Hub, place: Place, branch: string, used: string, url: string)
    ensures EndOf(hub, place, branch, Finish(used), url)
      == (hub.(trail := hub.trail + [Pr(branch, used)], bookmarks := hub.bookmarks - {branch}), PR_OPEN, Done(used))
  {
    var told := hub.(trail := hub.trail + [Pr(branch, used)]);
    ReapEnds(told, PR_OPEN, branch, used, url);
    assert EndOf(hub, PR_OPEN, branch, Announce(used), url) == EndOf(told, PR_OPEN, branch, Reap(used), url);
  }

  lemma ReapEnds(hub: Hub, place: Place, branch: string, used: string, url: string)
    ensures EndOf(hub, place, branch, Reap(used), url) == (hub.(bookmarks := hub.bookmarks - {branch}), place, Done(used))
  {
  }

  lemma EndsFromFind(hub: Hub, place: Place, branch: string, url: string)
    ensures var (h, p, end) := EndOf(hub, place, branch, Find, url); EndsOpen(hub, h, p, end, branch, None, url)
  {
    FoundFirst(hub.prs, branch);
    var found := FindPr(hub.prs, branch);
    hide FindPr;
    if found.Some? {
      EndsFromRecord(hub, place, branch, found.value, url);
    } else {
      EndsFromRecord(hub.(prs := hub.prs + [Pr(branch, url)]), place, branch, url, url);
    }
  }

  lemma EndsFromRecord(hub: Hub, place: Place, branch: string, used: string, url: string)
    ensures EndOf(hub, place, branch, Record(used), url) == EndOf(hub, LandingAt(PrCreated), branch, Finish(used), url)
    ensures EndOf(hub, place, branch, Record(used), url)
      == (hub.(trail := hub.trail + [Pr(branch, used)], bookmarks := hub.bookmarks - {branch}), PR_OPEN, Done(used))
  {
    EndsFromFinish(hub, LandingAt(PrCreated), branch, used, url);
  }

  lemma EndsFromPush(hub: Hub, place: Place, branch: string, url: string)
    requires branch in hub.bookmarks
    ensures var (h, p, end) := EndOf(hub, place, branch, Push, url);
      EndsOpen(hub, h, p, end, branch, Some(hub.bookmarks[branch]), url)
  {
    var pushed := hub.(branches := hub.branches[branch := hub.bookmarks[branch]]);
    EndsFromFind(pushed, LandingAt(PushDonePrPending), branch, url);
    assert EndOf(pushed, place, branch, Pushed, url) == EndOf(pushed, LandingAt(PushDonePrPending), branch, Find, url);
    hide Adopts;
  }

  /** A landing from the top: with a commit it points the branch there; without one it pushes the branch
      as it stands, and stops where it is if there is none. */
  lemma LandsExactly(hub: Hub, place: Place, branch: string, target: Target, url: string)
    ensures var (h, p, end) := EndOf(hub, place, branch, Entry(target, PushStarted), url);
      if target.TheBranch? && branch !in hub.bookmarks then (h, p, end) == (hub, LandingAt(PushStarted), Fault)
      else EndsOpen(hub, h, p, end, branch, Some(if target.Reviewed? then target.commit else hub.bookmarks[branch]), url)
  {
    var place1 := LandingAt(PushStarted);
    assert EndOf(hub, place, branch, Begin(target), url) == EndOf(hub, place1, branch, Point(target), url);
    if target.Reviewed? {
      var pointed := hub.(bookmarks := hub.bookmarks[branch := target.commit]);
      assert EndOf(hub, place1, branch, Point(target), url) == EndOf(pointed, place1, branch, Push, url);
      EndsFromPush(pointed, place1, branch, url);
      assert pointed.bookmarks - {branch} == hub.bookmarks - {branch};
      hide Adopts, EndOf;
    } else if branch in hub.bookmarks {
      assert EndOf(hub, place1, branch, Point(target), url) == EndOf(hub, place1, branch, Push, url);
      EndsFromPush(hub, place1, branch, url);
    }
  }

  /** The later substates: the push is not made again; an opened pull request is looked for, never opened
      a second time; anything else is no remote landing. */
  lemma ResumesExactly(hub: Hub, place: Place, branch: string, target: Target, from: Substate, url: string)
    requires !from.PushStarted?
    ensures var (h, p, end) := EndOf(hub, place, branch, Entry(target, from), url);
      if from.PushDonePrPending? || (from.PrCreated? && HasOpen(hub.prs, branch)) then EndsOpen(hub, h, p, end, branch, None, url)
      else (h, p, end) == (hub, place, Fault)
  {
    if from.PushDonePrPending? { EndsFromFind(hub, place, branch, url); }
    FoundFirst(hub.prs, branch);
    var found := FindPr(hub.prs, branch);
    hide FindPr;
    if from.PrCreated? && found.Some? {
      EndsFromFinish(hub, place, branch, found.value, url);
      assert EndOf(hub, place, branch, Rederive, url) == EndOf(hub, place, branch, Finish(found.value), url);
    }
  }

  // --- crashes --------------------------------------------------------------

  /** `k` operations, or fewer if the landing is over first. */
  function Steps(hub: Hub, place: Place, branch: string, pc: Pc, url: string, k: nat): (Hub, Place, Pc)
    decreases k
  {
    if k == 0 || Stopped(pc) then (hub, place, pc)
    else
      var (h, p, next) := Effect(hub, place, branch, pc, url);
      Steps(h, p, branch, next, url, k - 1)
  }

  /** Die after `schedule[0]` operations, restart, die after `schedule[1]` more, and so on; the last
      restart runs to the end. Nothing resumes an issue at pr-open. */
  function Crashing(hub: Hub, place: Place, branch: string, pc: Pc, url: string, schedule: seq<nat>): (Hub, Place)
    decreases |schedule|
  {
    if schedule == [] then (EndOf(hub, place, branch, pc, url).0, EndOf(hub, place, branch, pc, url).1)
    else
      var (h, p, _) := Steps(hub, place, branch, pc, url, schedule[0]);
      if p.phase.Landing? && p.column.Token? then
        Crashing(h, p, branch, Entry(TheBranch, p.column.sub), url, schedule[1..])
      else (h, p)
  }

  /** What every position satisfies once the branch has been pointed at the commit. */
  predicate OnWay(hub: Hub, place: Place, branch: string, commit: nat, pc: Pc) {
    var pointed := place == LandingAt(PushStarted) && branch in hub.bookmarks && hub.bookmarks[branch] == commit;
    match pc
    case Begin(target) => target.TheBranch? && pointed
    case Point(target) => target.TheBranch? && pointed
    case Push => pointed
    case Pushed => pointed && branch in hub.branches && hub.branches[branch] == commit
    case Find => place == LandingAt(PushDonePrPending)
    case Open => place == LandingAt(PushDonePrPending) && FindPr(hub.prs, branch).None?
    case Record(u) => place == LandingAt(PushDonePrPending) && FindPr(hub.prs, branch) == Some(u)
    case Rederive => place == LandingAt(PrCreated) && FindPr(hub.prs, branch).Some?
    case Finish(u) => place == LandingAt(PrCreated) && FindPr(hub.prs, branch) == Some(u)
    case Announce(_) => place == PR_OPEN
    case Reap(_) => place == PR_OPEN
    case Done(_) => place == PR_OPEN
    case Fault => false
  }

  lemma {:induction false} FoundWhereAdded(prs: seq<Pr>, branch: string, url: string)
    requires FindPr(prs, branch).None?
    ensures FindPr(prs + [Pr(branch, url)], branch) == Some(url)
  {
    if prs == [] {
      assert prs + [Pr(branch, url)] == [Pr(branch, url)];
    } else {
      assert (prs + [Pr(branch, url)])[1..] == prs[1..] + [Pr(branch, url)];
      FoundWhereAdded(prs[1..], branch, url);
    }
  }

  lemma StaysOnWay(hub: Hub, place: Place, branch: string, commit: nat, pc: Pc, url: string)
    requires OnWay(hub, place, branch, commit, pc) && !Stopped(pc)
    ensures var (h, p, next) := Effect(hub, place, branch, pc, url); OnWay(h, p, branch, commit, next)
  {
    if pc.Open? { FoundWhereAdded(hub.prs, branch, url); }
    hide FindPr;
  }

  /** A restart takes up where the rest of the landing would have led. */
  lemma RestartsOnWay(hub: Hub, place: Place, branch: string, commit: nat, pc: Pc, url: string)
    requires OnWay(hub, place, branch, commit, pc) && place != PR_OPEN
    ensures place.phase.Landing? && place.column.Token?
    ensures var again := Entry(TheBranch, place.column.sub);
      OnWay(hub, place, branch, commit, again) && EndOf(hub, place, branch, again, url) == EndOf(hub, place, branch, pc, url)
  {
    hide FindPr;
    match pc
    case Pushed =>
      var pushed := hub.(branches := hub.branches[branch := commit]);
      assert pushed == hub;
      assert EndOf(hub, place, branch, Begin(TheBranch), url) == EndOf(hub, place, branch, Push, url);
    case _ =>
  }

  lemma {:induction false} StepsOnWay(hub: Hub, place: Place, branch: string, commit: nat, pc: Pc, url: string, k: nat)
    requires OnWay(hub, place, branch, commit, pc)
    ensures var (h, p, next) := Steps(hub, place, branch, pc, url, k);
      OnWay(h, p, branch, commit, next) && EndOf(h, p, branch, next, url) == EndOf(hub, place, branch, pc, url)
    decreases k
  {
    hide OnWay, Effect;
    if k > 0 && !Stopped(pc) {
      StaysOnWay(hub, place, branch, commit, pc, url);
      var (h, p, next) := Effect(hub, place, branch, pc, url);
      StepsOnWay(h, p, branch, commit, next, url, k - 1);
    }
  }

  /** As the undisturbed landing leaves it, but for the event and the bookmark, which a death after
      pr-open can leave behind. */
  predicate SameButCourtesy(hub: Hub, end: Hub, branch: string) {
    && hub.prs == end.prs && hub.branches == end.branches
    && hub.bookmarks - {branch} == end.bookmarks
    && (hub.trail == end.trail || (end.trail != [] && hub.trail == end.trail[..|end.trail| - 1]))
  }

  lemma PastOpen(hub: Hub, place: Place, branch: string, commit: nat, pc: Pc, url: string)
    requires OnWay(hub, place, branch, commit, pc) && place == PR_OPEN
    ensures EndOf(hub, place, branch, pc, url).1 == PR_OPEN
    ensures pc.Done? ==> EndOf(hub, place, branch, pc, url).0 == hub
    ensures !pc.Done? ==> SameButCourtesy(hub, EndOf(hub, place, branch, pc, url).0, branch)
  {
    match pc
    case Announce(u) =>
      var told := hub.(trail := hub.trail + [Pr(branch, u)]);
      assert told.trail[..|told.trail| - 1] == hub.trail;
      ReapEnds(told, place, branch, u, url);
      assert EndOf(hub, place, branch, pc, url) == EndOf(told, place, branch, Reap(u), url);
    case Reap(u) => ReapEnds(hub, place, branch, u, url);
    case _ =>
  }

  /** From any of those positions every crash schedule comes to the same pull request, the same remote
      branch and pr-open. */
  lemma {:induction false} SchedulesEndTheSame(hub: Hub, place: Place, branch: string, commit: nat, pc: Pc, url: string, schedule: seq<nat>)
    requires OnWay(hub, place, branch, commit, pc)
    ensures var (h, p) := Crashing(hub, place, branch, pc, url, schedule);
      var e := EndOf(hub, place, branch, pc, url);
      p == e.1 == PR_OPEN && (h == e.0 || SameButCourtesy(h, e.0, branch))
    decreases |schedule|
  {
    EndsOnWay(hub, place, branch, commit, pc, url);
    hide OnWay, EndOf, Steps, SameButCourtesy;
    if schedule != [] {
      StepsOnWay(hub, place, branch, commit, pc, url, schedule[0]);
      var (h, p, next) := Steps(hub, place, branch, pc, url, schedule[0]);
      if p == PR_OPEN {
        PastOpen(h, p, branch, commit, next, url);
      } else {
        RestartsOnWay(h, p, branch, commit, next, url);
        SchedulesEndTheSame(h, p, branch, commit, Entry(TheBranch, p.column.sub), url, schedule[1..]);
      }
    }
  }

  lemma {:induction false} EndsOnWay(hub: Hub, place: Place, branch: string, commit: nat, pc: Pc, url: string)
    requires OnWay(hub, place, branch, commit, pc)
    ensures EndOf(hub, place, branch, pc, url).1 == PR_OPEN
    decreases Rank(pc)
  {
    hide FindPr;
    if !Stopped(pc) {
      StaysOnWay(hub, place, branch, commit, pc, url);
      var (h, p, next) := Effect(hub, place, branch, pc, url);
      EndsOnWay(h, p, branch, commit, next, url);
    }
  }

  /** Without the branch a restart before the push comes to nothing, however often. */
  lemma {:induction false} StuckBeforePush(hub: Hub, place: Place, branch: string, pc: Pc, url: string, schedule: seq<nat>)
    requires branch !in hub.bookmarks && place == LandingAt(PushStarted)
    requires pc == Begin(TheBranch) || pc == Point(TheBranch) || pc == Fault
    ensures Crashing(hub, place, branch, pc, url, schedule) == (hub, LandingAt(PushStarted))
    decreases |schedule|
  {
    if schedule == [] {
      assert EndOf(hub, place, branch, Point(TheBranch), url) == EndOf(hub, place, branch, Fault, url);
      assert EndOf(hub, place, branch, Begin(TheBranch), url) == EndOf(hub, place, branch, Point(TheBranch), url);
    } else {
      StuckSteps(hub, place, branch, pc, url, schedule[0]);
      StuckBeforePush(hub, place, branch, Begin(TheBranch), url, schedule[1..]);
    }
  }

  lemma {:induction false} StuckSteps(hub: Hub, place: Place, branch: string, pc: Pc, url: string, k: nat)
    requires branch !in hub.bookmarks && place == LandingAt(PushStarted)
    requires pc == Begin(TheBranch) || pc == Point(TheBranch) || pc == Fault
    ensures var (h, p, _) := Steps(hub, place, branch, pc, url, k); h == hub && p == place
    decreases k
  {
    if k > 0 && !Stopped(pc) {
      StuckSteps(hub, place, branch, if pc.Begin? then Point(TheBranch) else Fault, url, k - 1);
    }
  }

  /** Crash independence, exactly: however the process keeps dying once the landing has begun, the issue
      ends at pr-open with the pull request and the remote branch of the undisturbed landing, except
      when it first dies before the branch was pointed at the reviewed commit and the branch was not
      there already. */
  lemma CrashesMatterExactly(hub: Hub, place: Place, branch: string, commit: nat, url: string, first: nat, schedule: seq<nat>)
    requires first >= 1
    ensures var begin := Begin(Reviewed(commit));
      var (h, p), e := Crashing(hub, place, branch, begin, url, [first] + schedule), EndOf(hub, place, branch, begin, url);
      (p == PR_OPEN && (h == e.0 || SameButCourtesy(h, e.0, branch)))
      <==> first > 1 || (branch in hub.bookmarks && hub.bookmarks[branch] == commit)
  {
    var begin, started := Begin(Reviewed(commit)), LandingAt(PushStarted);
    assert ([first] + schedule)[0] == first && ([first] + schedule)[1..] == schedule;
    LandsExactly(hub, place, branch, Reviewed(commit), url);
    if first == 1 {
      BegunOnly(hub, place, branch, commit, url);
      if branch in hub.bookmarks {
        SchedulesEndTheSame(hub, started, branch, hub.bookmarks[branch], Begin(TheBranch), url, schedule);
        LandsExactly(hub, started, branch, TheBranch, url);
        EndsAlike(hub, place, branch, commit, url);
      } else {
        StuckBeforePush(hub, started, branch, Begin(TheBranch), url, schedule);
      }
    } else {
      PointedFirst(hub, place, branch, commit, url, first);
      var pointed := hub.(bookmarks := hub.bookmarks[branch := commit]);
      SchedulesEndTheSame(pointed, started, branch, commit, Push, url, [first - 2] + schedule);
      assert ([first - 2] + schedule)[0] == first - 2 && ([first - 2] + schedule)[1..] == schedule;
    }
    hide EndOf, Steps, OnWay, EndsOpen;
  }

  lemma BegunOnly(hub: Hub, place: Place, branch: string, commit: nat, url: string)
    ensures Steps(hub, place, branch, Begin(Reviewed(commit)), url, 1) == (hub, LandingAt(PushStarted), Point(Reviewed(commit)))
  {
    assert Steps(hub, LandingAt(PushStarted), branch, Point(Reviewed(commit)), url, 0)
      == (hub, LandingAt(PushStarted), Point(Reviewed(commit)));
  }

  /** The branch that was there already gives the same end iff it is at the reviewed commit. */
  lemma EndsAlike(hub: Hub, place: Place, branch: string, commit: nat, url: string)
    requires branch in hub.bookmarks
    ensures var a := EndOf(hub, LandingAt(PushStarted), branch, Begin(TheBranch), url);
      var b := EndOf(hub, place, branch, Begin(Reviewed(commit)), url);
      && (hub.bookmarks[branch] == commit ==> a.0 == b.0)
      && (hub.bookmarks[branch] != commit ==> a.0.branches != b.0.branches)
  {
    LandsExactly(hub, place, branch, Reviewed(commit), url);
    LandsExactly(hub, LandingAt(PushStarted), branch, TheBranch, url);
    if hub.bookmarks[branch] == commit {
      var pointed := hub.(bookmarks := hub.bookmarks[branch := commit]);
      assert pointed == hub;
      PointedFirst(hub, place, branch, commit, url, 2);
      assert EndOf(hub, LandingAt(PushStarted), branch, Begin(TheBranch), url) == EndOf(hub, LandingAt(PushStarted), branch, Push, url);
    } else {
      var a := EndOf(hub, LandingAt(PushStarted), branch, Begin(TheBranch), url);
      assert a.0.branches[branch] == hub.bookmarks[branch];
    }
  }

  lemma PointedFirst(hub: Hub, place: Place, branch: string, commit: nat, url: string, k: nat)
    requires k >= 2
    ensures var pointed := hub.(bookmarks := hub.bookmarks[branch := commit]);
      && Steps(hub, place, branch, Begin(Reviewed(commit)), url, k) == Steps(pointed, LandingAt(PushStarted), branch, Push, url, k - 2)
      && EndOf(hub, place, branch, Begin(Reviewed(commit)), url) == EndOf(pointed, LandingAt(PushStarted), branch, Push, url)
  {
    var place1 := LandingAt(PushStarted);
    var pointed := hub.(bookmarks := hub.bookmarks[branch := commit]);
    assert Steps(hub, place1, branch, Point(Reviewed(commit)), url, k - 1) == Steps(pointed, place1, branch, Push, url, k - 2);
    assert EndOf(hub, place1, branch, Point(Reviewed(commit)), url) == EndOf(pointed, place1, branch, Push, url);
  }
}
