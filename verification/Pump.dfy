/** The build pump as it runs: it ingests issues, drives each through implement, QA, review and landing,
    and resumes the parked ones a human has approved, with everything outside free to answer
    anything. */
module Pump {
  import opened Common
  import opened State
  import opened Artifacts
  import opened History
  import opened Drive

  datatype IssueOutcome = OutMerged | OutPrOpen | OutAwaitingHuman | OutAwaitingApproval | Requeued | OutError

  /** Where each outcome leaves the issue. */
  function PlaceOf(out: IssueOutcome): Place {
    match out
    case OutMerged => MERGED
    case OutPrOpen => PR_OPEN
    case OutAwaitingHuman => AWAITING_HUMAN
    case OutAwaitingApproval => PARKED
    case Requeued => IMPLEMENTING
    case OutError => ERROR
  }

  datatype ImplStep = ImplDone(out: IssueOutcome) | ImplPassed(change: nat)
  datatype ReviewStep = ReviewDone(out: IssueOutcome) | Reimplement

  // --- the table of issues --------------------------------------------------

  /** How many more times an issue can be driven. */
  function Drives(r: Row): nat {
    if !IsDrivable(r.place.phase) then 0 else if r.round >= 2 then 1 else 3 - r.round
  }

  function AllDrives(rows: seq<Row>): nat {
    if rows == [] then 0 else AllDrives(rows[..|rows| - 1]) + Drives(rows[|rows| - 1])
  }

  lemma {:induction false} OneDriveFewer(rows: seq<Row>, k: nat, r: Row)
    requires k < |rows|
    ensures AllDrives(rows[k := r]) == AllDrives(rows) - Drives(rows[k]) + Drives(r)
    ensures Drives(rows[k]) <= AllDrives(rows)
    decreases |rows|
  {
    var n := |rows| - 1;
    if k < n {
      OneDriveFewer(rows[..n], k, r);
      assert rows[k := r][..n] == rows[..n][k := r];
    } else {
      assert rows[k := r][..n] == rows[..n];
    }
  }

  /** How many of the issues before the `k`th are to be driven. */
  function Ahead(rows: seq<Row>, k: nat): nat
    requires k <= |rows|
  {
    if k == 0 then 0 else Ahead(rows, k - 1) + if IsDrivable(rows[k - 1].place.phase) then 1 else 0
  }

  /** The drivable issues in ascending order, all of them. */
  predicate ListsDrivable(rows: seq<Row>, ids: seq<nat>) {
    && (forall j :: 0 <= j < |ids| ==> ids[j] < |rows| && IsDrivable(rows[ids[j]].place.phase))
    && (forall i, j :: 0 <= i < j < |ids| ==> ids[i] < ids[j])
    && forall k :: 0 <= k < |rows| && IsDrivable(rows[k].place.phase) ==> k in ids
  }

  /** An issue stands in that list behind those ahead of it. */
  lemma {:induction false} Ranks(rows: seq<Row>, ids: seq<nat>, k: nat, j: nat)
    requires ListsDrivable(rows, ids) && k <= |rows| && j <= |ids|
    requires (forall i :: 0 <= i < j ==> ids[i] < k) && forall i :: j <= i < |ids| ==> ids[i] >= k
    ensures Ahead(rows, k) == j
    decreases k
  {
    if k > 0 {
      if IsDrivable(rows[k - 1].place.phase) {
        var i :| 0 <= i < |ids| && ids[i] == k - 1;
        assert i < j && ids[i] <= ids[j - 1] < k;
        Ranks(rows, ids, k - 1, j - 1);
      } else {
        Ranks(rows, ids, k - 1, j);
      }
    }
  }

  lemma {:induction false} AheadOfPrefix(rows: seq<Row>, more: seq<Row>, k: nat)
    requires rows <= more && k <= |rows|
    ensures Ahead(more, k) == Ahead(rows, k)
  {
    if k > 0 { AheadOfPrefix(rows, more, k - 1); }
  }

  /** An issue driven since round 0 without a crash is within every budget. */
  predicate WithinBudget(r: Row, h: seq<Event>, k: nat, n: nat) {
    && (IsDrivable(r.place.phase) || IsTerminal(r.place.phase))
    && r.round < MAX_ADVERSARY_ROUNDS
    && Spawns(h, k, Implementer) <= r.round + (if IsDrivable(r.place.phase) then 0 else 1)
    && Spawns(h, k, Adversary) <= n * Spawns(h, k, Implementer)
    && Spawns(h, k, Merger) == r.retries == Charges(h, k) <= MAX_MERGER_SPAWNS
  }

  ghost predicate Untouched(h: seq<Event>, k: nat) {
    Charges(h, k) == 0 && forall role :: Spawns(h, k, role) == 0
  }

  /** Every issue within its budgets, every consequential event justified, every landing of a peer's
      issue past the gate. */
  ghost predicate Order(rows: seq<Row>, h: seq<Event>, n: nat, reader: Reader) {
    && (forall k :: 0 <= k < |rows| ==> WithinBudget(rows[k], h, k, n))
    && (forall k :: k >= |rows| ==> Untouched(h, k))
    && Proper(h, n, reader) && GateHolds(rows, h)
  }

  predicate GateHolds(rows: seq<Row>, h: seq<Event>) {
    forall t :: 0 <= t < |h| && h[t].Tried? ==>
      h[t].issue < |rows| && t > 0 && h[t - 1].Looked? && (rows[h[t].issue].inbound ==> h[t - 1].approved)
  }

  lemma GateAfter(rows: seq<Row>, h: seq<Event>, next: seq<Row>, more: seq<Event>, k: nat, start: At, n: nat, reader: Reader)
    requires GateHolds(rows, h) && k < |rows| == |next| && (forall j :: 0 <= j < |rows| ==> next[j].inbound == rows[j].inbound)
    requires Gated(more, rows[k].inbound) && Play(start, more, k, n, reader).Some?
    ensures GateHolds(next, h + more)
  {
    forall t | 0 <= t < |h + more| && (h + more)[t].Tried?
      ensures (h + more)[t].issue < |next| && t > 0 && (h + more)[t - 1].Looked?
              && (next[(h + more)[t].issue].inbound ==> (h + more)[t - 1].approved)
    {
      if t >= |h| {
        assert (h + more)[t] == more[t - |h|] && (h + more)[t - 1] == more[t - |h| - 1];
        PlayedIsOwn(start, more, t - |h|, k, n, reader);
      }
    }
  }

  lemma {:induction false} PlayedIsOwn(start: At, h: seq<Event>, t: nat, k: nat, n: nat, reader: Reader)
    requires t < |h| && Play(start, h, k, n, reader).Some?
    ensures h[t].issue == k
    decreases |h|
  {
    hide Next;
    var front := h[..|h| - 1];
    if t < |front| {
      PlayedIsOwn(start, front, t, k, n, reader);
    } else {
      OwnEvent(Play(start, front, k, n, reader).value, h[t], k, n, reader);
    }
  }

  lemma OthersUnspent(start: At, h: seq<Event>, more: seq<Event>, k: nat, n: nat, reader: Reader, j: nat)
    requires Play(start, more, k, n, reader).Some? && j != k
    ensures Charges(h + more, j) == Charges(h, j) && forall role :: Spawns(h + more, j, role) == Spawns(h, j, role)
  {
    hide Play, Spawns, Charges;
    PlayIsOwn(start, more, k, n, reader, j);
    CountsOfConcat(h, more, j);
  }

  lemma EndBooks(was: Row, r: Row, implementers: nat, adversaries: nat, mergers: nat, charges: nat, n: nat)
    requires Books(was, At(r, Ended), implementers, adversaries, mergers, charges, n) && Placed(At(r, Ended))
    ensures r.place == IMPLEMENTING || IsTerminal(r.place.phase)
    ensures was.round <= r.round && (r.round > was.round ==> r.round < MAX_ADVERSARY_ROUNDS)
    ensures implementers == r.round - was.round + if r.place == IMPLEMENTING then 0 else 1
    ensures r.place == IMPLEMENTING ==> was.round < r.round < MAX_QA_RETRIES
    ensures adversaries <= n * implementers && mergers == charges == r.retries - was.retries
    ensures charges > 0 ==> r.retries <= MAX_MERGER_SPAWNS
  {
  }

  lemma DriveWithinBudget(was: Row, next: Row, h: seq<Event>, more: seq<Event>, k: nat, n: nat, reader: Reader)
    requires n >= 1 && WithinBudget(was, h, k, n) && IsDrivable(was.place.phase)
    requires Play(At(was.(place := IMPLEMENTING), Ready), more, k, n, reader) == Some(At(next, Ended))
    ensures WithinBudget(next, h + more, k, n) && Drives(next) < Drives(was)
    ensures next.place == IMPLEMENTING || IsTerminal(next.place.phase)
  {
    hide Play, Spawns, Charges, Books;
    PlayKeepsBooks(At(was.(place := IMPLEMENTING), Ready), more, k, n, reader);
    CountsOfConcat(h, more, k);
    var a, b := Spawns(h, k, Implementer), Spawns(more, k, Implementer);
    EndBooks(was.(place := IMPLEMENTING), next, b, Spawns(more, k, Adversary), Spawns(more, k, Merger), Charges(more, k), n);
    assert n * (a + b) == n * a + n * b;
  }

  /** Driving one issue to the end of its turn keeps the whole table in order, and the issue has one
      turn fewer left. */
  lemma DriveKeepsOrder(rows: seq<Row>, h: seq<Event>, next: seq<Row>, more: seq<Event>, k: nat, n: nat, reader: Reader)
    requires n >= 1 && Order(rows, h, n, reader) && k < |rows| && IsDrivable(rows[k].place.phase)
    requires |next| == |rows| && next == rows[k := next[k]]
    requires Play(At(rows[k].(place := IMPLEMENTING), Ready), more, k, n, reader) == Some(At(next[k], Ended))
    ensures Order(next, h + more, n, reader) && AllDrives(next) < AllDrives(rows)
    ensures next[k].place == IMPLEMENTING || IsTerminal(next[k].place.phase)
  {
    var start := At(rows[k].(place := IMPLEMENTING), Ready);
    PlayIsProper(start, more, k, n, reader);
    ConcatKeepsProper(h, more, n, reader);
    GateAfter(rows, h, next, more, k, start, n, reader);
    DriveWithinBudget(rows[k], next[k], h, more, k, n, reader);
    OneDriveFewer(rows, k, next[k]);
    OthersKeepOrder(rows, h, next, more, k, start, n, reader);
  }

  lemma OthersKeepOrder(rows: seq<Row>, h: seq<Event>, next: seq<Row>, more: seq<Event>, k: nat, start: At, n: nat, reader: Reader)
    requires Order(rows, h, n, reader) && k < |rows| == |next| && next == rows[k := next[k]]
    requires Play(start, more, k, n, reader).Some? && WithinBudget(next[k], h + more, k, n)
    requires Proper(h + more, n, reader) && GateHolds(next, h + more)
    ensures Order(next, h + more, n, reader)
  {
    hide Play, Spawns, Charges, Proper, GateHolds;
    forall j: nat | j != k ensures j < |next| ==> WithinBudget(next[j], h + more, j, n)
      ensures j >= |next| ==> Untouched(h + more, j)
    {
      OthersUnspent(start, h, more, k, n, reader, j);
      if j < |rows| { assert WithinBudget(rows[j], h, j, n); } else { assert Untouched(h, j); }
    }
  }

  lemma ResumeWithinBudget(was: Row, next: Row, h: seq<Event>, more: seq<Event>, k: nat, n: nat, reader: Reader)
    requires WithinBudget(was, h, k, n) && was.place.phase.AwaitingInboundApproval?
    requires Play(At(was, Waiting), more, k, n, reader) == Some(At(next, Ended))
    ensures WithinBudget(next, h + more, k, n) && IsTerminal(next.place.phase)
  {
    hide Play, Spawns, Charges;
    ResumeKeepsBooks(At(was, Waiting), more, k, n, reader);
    CountsOfConcat(h, more, k);
  }

  /** So does looking at a parked one. */
  lemma ResumeKeepsOrder(rows: seq<Row>, h: seq<Event>, next: seq<Row>, more: seq<Event>, k: nat, n: nat, reader: Reader)
    requires n >= 1 && Order(rows, h, n, reader) && k < |rows| && rows[k].place.phase.AwaitingInboundApproval?
    requires |next| == |rows| && next == rows[k := next[k]]
    requires Play(At(rows[k], Waiting), more, k, n, reader) == Some(At(next[k], Ended))
    ensures Order(next, h + more, n, reader) && AllDrives(next) == AllDrives(rows) && IsTerminal(next[k].place.phase)
  {
    var start := At(rows[k], Waiting);
    PlayIsProper(start, more, k, n, reader);
    ConcatKeepsProper(h, more, n, reader);
    GateAfter(rows, h, next, more, k, start, n, reader);
    ResumeWithinBudget(rows[k], next[k], h, more, k, n, reader);
    OneDriveFewer(rows, k, next[k]);
    OthersKeepOrder(rows, h, next, more, k, start, n, reader);
  }

  lemma IngestKeepsOrder(rows: seq<Row>, h: seq<Event>, n: nat, reader: Reader, r: Row)
    requires Order(rows, h, n, reader) && r.place == Place(Graphed, Null) && r.round == 0 && r.retries == 0
    ensures Order(rows + [r], h, n, reader) && AllDrives(rows + [r]) == AllDrives(rows) + 3
  {
    hide Spawns, Charges, Proper;
    assert (rows + [r])[..|rows|] == rows;
    assert Untouched(h, |rows|);
    forall j | 0 <= j < |rows| + 1 ensures WithinBudget((rows + [r])[j], h, j, n) {
      if j < |rows| { assert WithinBudget(rows[j], h, j, n); }
    }
  }

  class BuildPump {
    var rows: seq<Row>
    const rounds: nat
    const budget: nat
    const reader: Reader
    var backlog: nat
    ghost var hist: seq<Event>

    /** `backlog` counts the graphed issues in the tracker that have no row yet. */
    constructor (rows: seq<Row>, backlog: nat, rounds: nat, budget: nat, reader: Reader)
      ensures this.rows == rows && this.backlog == backlog && hist == []
      ensures this.rounds == rounds && this.budget == budget && this.reader == reader
    {
      this.rows, this.backlog, this.rounds, this.budget, this.reader, hist := rows, backlog, rounds, budget, reader, [];
    }

    /** What loading the configuration checks. */
    predicate Configured() { 1 <= rounds <= MAX_ADVERSARY_ROUNDS && budget >= 1 }

    twostate predicate OnlyRow(k: nat) reads this {
      |rows| == |old(rows)| && forall j :: 0 <= j < |rows| && j != k ==> rows[j] == old(rows)[j]
    }

    /** From where the issue stood, what happened between two points of the history leads to where `at`
        says. */
    predicate Came(start: At, before: seq<Event>, after: seq<Event>, k: nat, at: At) {
      before <= after && Play(start, after[|before|..], k, rounds, reader) == Some(at)
    }

    /** One more event. */
    lemma Extend(start: At, before: seq<Event>, mid: seq<Event>, k: nat, at: At, e: Event)
      requires Came(start, before, mid, k, at) && Next(at, e, k, rounds, reader).Some?
      ensures Came(start, before, mid + [e], k, Next(at, e, k, rounds, reader).value)
    {
      PlayOn(start, mid[|before|..], e, k, rounds, reader);
      assert (mid + [e])[|before|..] == mid[|before|..] + [e];
    }

    // --- outside ------------------------------------------------------------

    method Log(e: Event)
      modifies this`hist
      ensures hist == old(hist) + [e]
    {
      hist := hist + [e];
    }

    method Implement(k: nat) returns (work: Work)
      modifies this`hist
      ensures hist == old(hist) + [Spawned(k, Implementer), Worked(k, work)]
    {
      work := *;
      hist := hist + [Spawned(k, Implementer), Worked(k, work)];
    }

    method RunQa(k: nat, change: nat) returns (qa: Qa)
      modifies this`hist
      ensures hist == old(hist) + [Checked(k, change, qa)]
    {
      qa := *;
      hist := hist + [Checked(k, change, qa)];
    }

    method Review(k: nat, change: nat) returns (attack: Attack)
      modifies this`hist
      ensures hist == old(hist) + [Spawned(k, Adversary), Judged(k, change, attack)]
    {
      attack := *;
      hist := hist + [Spawned(k, Adversary), Judged(k, change, attack)];
    }

    method ReadApproval(k: nat) returns (approved: bool)
      modifies this`hist
      ensures hist == old(hist) + [Looked(k, approved)]
    {
      approved := *;
      hist := hist + [Looked(k, approved)];
    }

    method TryLanding(k: nat, change: nat) returns (landed: Landed)
      modifies this`hist
      ensures hist == old(hist) + [Tried(k, change, landed)]
    {
      landed := *;
      hist := hist + [Tried(k, change, landed)];
    }

    method ResolveConflict(k: nat) returns (resolution: Resolution)
      modifies this`hist
      ensures hist == old(hist) + [Spawned(k, Merger), Resolved(k, resolution)]
    {
      resolution := *;
      hist := hist + [Spawned(k, Merger), Resolved(k, resolution)];
    }

    method RetryLanding(k: nat, commit: nat) returns (moved: bool)
      modifies this`hist
      ensures hist == old(hist) + [Retried(k, commit, moved)]
    {
      moved := *;
      hist := hist + [Retried(k, commit, moved)];
    }

    // --- one issue ------------------------------------------------------------

    method SetPlace(k: nat, p: Place)
      requires k < |rows|
      modifies this`rows
      ensures rows == old(rows)[k := old(rows)[k].(place := p)]
    {
      rows := rows[k := rows[k].(place := p)];
    }

    method Poison(k: nat) returns (out: IssueOutcome)
      requires k < |rows|
      modifies this`rows
      ensures rows == old(rows)[k := End(old(rows)[k], ERROR).row] && out.OutError?
    {
      SetPlace(k, ERROR);
      out := OutError;
    }

    method Park(k: nat) returns (out: IssueOutcome)
      requires k < |rows|
      modifies this`rows
      ensures rows == old(rows)[k := End(old(rows)[k], AWAITING_HUMAN).row] && out.OutAwaitingHuman?
    {
      SetPlace(k, AWAITING_HUMAN);
      out := OutAwaitingHuman;
    }

    /** The QA budget is counted in the round column, which adversary rounds also advance. */
    method OnQaFail(k: nat) returns (out: IssueOutcome)
      requires k < |rows|
      modifies this`rows
      ensures k < |rows| && rows == old(rows)[k := AfterQa(old(rows)[k], 0, QaFail).row]
      ensures (out.Requeued? || out.OutError?) && rows[k].place == PlaceOf(out)
      ensures out.Requeued? <==> old(rows)[k].round + 1 < MAX_QA_RETRIES
    {
      var round := rows[k].round;
      if round + 1 >= MAX_QA_RETRIES {
        out := Poison(k);
        return;
      }
      rows := rows[k := rows[k].(round := round + 1, place := IMPLEMENTING, streak := 0)];
      return Requeued;
    }

    method OnAdversaryFindings(k: nat) returns (step: ReviewStep)
      requires k < |rows|
      modifies this`rows
      ensures k < |rows| && rows == old(rows)[k := Redo(old(rows)[k], MAX_ADVERSARY_ROUNDS, Ready).row]
      ensures step == if old(rows)[k].round + 1 < MAX_ADVERSARY_ROUNDS then Reimplement else ReviewDone(OutError)
    {
      var next := rows[k].round + 1;
      if next >= MAX_ADVERSARY_ROUNDS {
        var out := Poison(k);
        return ReviewDone(out);
      }
      rows := rows[k := rows[k].(round := next, streak := 0)];
      SetPlace(k, IMPLEMENTING);
      return Reimplement;
    }

    method OnCleanRound(k: nat) returns (converged: bool)
      requires k < |rows|
      modifies this`rows
      ensures rows == old(rows)[k := old(rows)[k].(streak := old(rows)[k].streak + 1)]
      ensures converged <==> rows[k].streak >= rounds
    {
      rows := rows[k := rows[k].(streak := rows[k].streak + 1)];
      converged := rows[k].streak >= rounds;
    }

    /** One implementer, from whatever streak and round the row was left with, and QA on what it
        committed. */
    method RunImplementerRound(k: nat) returns (step: ImplStep)
      requires k < |rows| && rows[k].place == IMPLEMENTING
      modifies this`rows, this`hist
      ensures OnlyRow(k)
      ensures match step
        case ImplPassed(change) => Came(At(old(rows)[k], Ready), old(hist), hist, k, At(rows[k].(place := REVIEW), Reviewing(change)))
                                   && rows[k].streak == 0 && rows[k].round == old(rows)[k].round
        case ImplDone(out) => Came(At(old(rows)[k], Ready), old(hist), hist, k, At(rows[k], Ended)) && rows[k].place == PlaceOf(out)
    {
      hide Came;
      ghost var before, start := hist, At(rows[k], Ready);
      if rows[k].streak != 0 {
        rows := rows[k := rows[k].(streak := 0)];
      }
      var work := Implement(k);
      Begun(start, before, k, work);
      if !work.WorkCommits? {
        var out := Poison(k);
        return ImplDone(out);
      }
      SetPlace(k, Place(QaGate, Null));
      ghost var mid, at := hist, At(rows[k], Testing(work.change));
      var qa := RunQa(k, work.change);
      Extend(start, before, mid, k, at, Checked(k, work.change, qa));
      match qa
      case QaPass => return ImplPassed(work.change);
      case QaFail =>
        var out := OnQaFail(k);
        return ImplDone(out);
      case QaBroken =>
        var out := Poison(k);
        return ImplDone(out);
    }

    lemma Begun(start: At, before: seq<Event>, k: nat, work: Work)
      requires start.stage.Ready?
      ensures Came(start, before, before + [Spawned(k, Implementer), Worked(k, work)], k,
        if work.WorkCommits? then At(start.row.(streak := 0, place := Place(QaGate, Null)), Testing(work.change))
        else End(start.row.(streak := 0), ERROR))
    {
      NothingYet(start, before, k);
      var e, f := Spawned(k, Implementer), Worked(k, work);
      Extend(start, before, before, k, start, e);
      Extend(start, before, before + [e], k, At(start.row.(streak := 0), Building), f);
      hide Came;
      assert before + [e] + [f] == before + [e, f];
    }

    /** One adversary on the change. */
    method ReviewOnce(k: nat, change: nat) returns (verdict: RoundVerdict, ghost attack: Attack)
      modifies this`hist
      ensures hist == old(hist) + [Spawned(k, Adversary), Judged(k, change, attack)] && verdict == VerdictOf(reader, attack)
    {
      var answer := Review(k, change);
      attack := answer;
      if !answer.AttackDone? { return RoundPoisoned, attack; }
      var review := FromDone(reader, answer.done);
      if !review.Reviewed? { return RoundPoisoned, attack; }
      return if review.findings == [] then RoundClean else RoundFindings, attack;
    }

    /** Review one change until it converges, is sent back, or is given up. The exit after the loop is
        never reached. */
    method RunAdversaryReview(k: nat, change: nat) returns (step: ReviewStep)
      requires Configured() && k < |rows| && rows[k].streak == 0
      modifies this`rows, this`hist
      ensures OnlyRow(k)
      ensures Came(At(old(rows)[k].(place := REVIEW), Reviewing(change)), old(hist), hist, k,
                   At(rows[k], if step.Reimplement? then Ready else Ended))
      ensures match step
        case Reimplement => rows[k].place == IMPLEMENTING && old(rows)[k].round < rows[k].round < MAX_ADVERSARY_ROUNDS
        case ReviewDone(out) => rows[k].place == PlaceOf(out) && !out.Requeued?
    {
      hide Came, VerdictOf;
      SetPlace(k, REVIEW);
      ghost var before, start := hist, At(rows[k], Reviewing(change));
      step := ReviewDone(OutError);
      NothingYet(start, before, k);
      for i := 0 to MAX_ADVERSARY_ROUNDS
        invariant OnlyRow(k) && i < rounds && rows[k] == start.row.(streak := i)
        invariant Came(start, before, hist, k, At(rows[k], Reviewing(change)))
      {
        ghost var mid, at := hist, At(rows[k], Reviewing(change));
        var verdict, attack := ReviewOnce(k, change);
        OneRound(start, before, mid, k, at, attack);
        match verdict {
          case RoundPoisoned =>
            var out := Poison(k);
            return ReviewDone(out);
          case RoundFindings =>
            step := OnAdversaryFindings(k);
            return;
          case RoundClean =>
            var converged := OnCleanRound(k);
            if converged {
              SetPlace(k, CONVERGED);
              ghost var agreed := hist;
              var out := Land(k, change, true);
              Join(start, before, agreed, hist, k, At(at.row.(streak := i + 1, place := CONVERGED), Agreed(change)), At(rows[k], Ended));
              return ReviewDone(out);
            }
        }
      }
      assert false;
    }

    lemma OneRound(start: At, before: seq<Event>, mid: seq<Event>, k: nat, at: At, attack: Attack)
      requires Came(start, before, mid, k, at) && at.stage.Reviewing?
      ensures Came(start, before, mid + [Spawned(k, Adversary), Judged(k, at.stage.change, attack)], k,
                   AfterRound(at.row, at.stage.change, VerdictOf(reader, attack), rounds))
    {
      var e, f := Spawned(k, Adversary), Judged(k, at.stage.change, attack);
      Extend(start, before, mid, k, at, e);
      Extend(start, before, mid + [e], k, At(at.row, Attacked(at.stage.change)), f);
      hide Came, VerdictOf;
      assert mid + [e] + [f] == mid + [e, f];
    }

    /** What came of the rest, on top of what came before it. */
    lemma Join(start: At, before: seq<Event>, mid: seq<Event>, after: seq<Event>, k: nat, at: At, end: At)
      requires Came(start, before, mid, k, at) && Came(at, mid, after, k, end)
      ensures Came(start, before, after, k, end)
    {
      hide Play;
      PlayConcat(start, mid[|before|..], after[|mid|..], k, rounds, reader);
      assert after == mid + after[|mid|..] && mid == before + mid[|before|..];
      assert after[|before|..] == mid[|before|..] + after[|mid|..];
    }

    /** Hand a change to landing: park an unapproved inbound issue on it, or land it. */
    method Land(k: nat, change: nat, reviewed: bool) returns (out: IssueOutcome)
      requires k < |rows|
      modifies this`rows, this`hist
      ensures OnlyRow(k) && rows[k].place == PlaceOf(out) && !out.Requeued?
      ensures Came(At(old(rows)[k], if reviewed then Agreed(change) else Approved(change)), old(hist), hist, k, At(rows[k], Ended))
    {
      hide Came;
      ghost var before, start := hist, At(rows[k], if reviewed then Agreed(change) else Approved(change));
      Log(Handed(k, change, reviewed));
      var approved := ReadApproval(k);
      AtTheGate(start, before, k, change, reviewed, approved);
      if rows[k].inbound && !approved {
        rows := rows[k := rows[k].(stored := Some(change))];
        SetPlace(k, PARKED);
        return OutAwaitingApproval;
      }
      ghost var mid := hist;
      var landed := TryLanding(k, change);
      Extend(start, before, mid, k, At(rows[k], Cleared(change)), Tried(k, change, landed));
      match landed
      case LandMerged =>
        SetPlace(k, MERGED);
        return OutMerged;
      case LandPrOpen =>
        SetPlace(k, PR_OPEN);
        return OutPrOpen;
      case LandParked => out := Park(k);
      case LandNoToken => out := Poison(k);
      case LandConflict =>
        SetPlace(k, LandingAt(Merging));
        ghost var tried := hist;
        out := ResolveConflictWithMerger(k);
        if old(rows)[k].retries < MAX_MERGER_SPAWNS {
          Join(start, before, tried, hist, k, At(start.row.(place := LandingAt(Merging)), Conflicted), At(rows[k], Ended));
        }
    }

    lemma AtTheGate(start: At, before: seq<Event>, k: nat, change: nat, reviewed: bool, approved: bool)
      requires start.stage == if reviewed then Agreed(change) else Approved(change)
      ensures Came(start, before, before + [Handed(k, change, reviewed)] + [Looked(k, approved)], k, AfterGate(start.row, change, approved))
    {
      hide Came;
      NothingYet(start, before, k);
      Extend(start, before, before, k, start, Handed(k, change, reviewed));
      Extend(start, before, before + [Handed(k, change, reviewed)], k, At(start.row, AtGate(change)), Looked(k, approved));
    }

    /** One Merger per issue, charged for before it is spawned; what it resolves must pass QA again and
        then still be a fast-forward. */
    method ResolveConflictWithMerger(k: nat) returns (out: IssueOutcome)
      requires k < |rows|
      modifies this`rows, this`hist
      ensures OnlyRow(k) && rows[k].place == PlaceOf(out) && (out.OutMerged? || out.OutAwaitingHuman?)
      ensures if old(rows)[k].retries >= MAX_MERGER_SPAWNS
        then hist == old(hist) && rows[k] == End(old(rows)[k], AWAITING_HUMAN).row
        else Came(At(old(rows)[k], Conflicted), old(hist), hist, k, At(rows[k], Ended))
    {
      hide Came;
      ghost var before, start := hist, At(rows[k], Conflicted);
      var retries := rows[k].retries;
      if retries >= MAX_MERGER_SPAWNS {
        out := Park(k);
        return;
      }
      rows := rows[k := rows[k].(retries := retries + 1)];
      Log(Charged(k));
      var resolution := ResolveConflict(k);
      Resolving(start, before, k, resolution);
      if !resolution.MergerResolves? {
        out := Park(k);
        return;
      }
      ghost var mid := hist;
      var qa := RunQa(k, resolution.commit);
      Extend(start, before, mid, k, At(rows[k], Rechecking(resolution.commit)), Checked(k, resolution.commit, qa));
      if !qa.QaPass? {
        out := Park(k);
        return;
      }
      mid := hist;
      var moved := RetryLanding(k, resolution.commit);
      Extend(start, before, mid, k, At(rows[k], Retrying(resolution.commit)), Retried(k, resolution.commit, moved));
      if moved {
        SetPlace(k, MERGED);
        return OutMerged;
      }
      out := Park(k);
    }

    lemma Resolving(start: At, before: seq<Event>, k: nat, resolution: Resolution)
      requires start.stage.Conflicted?
      ensures var r := start.row.(retries := start.row.retries + 1);
        Came(start, before, before + [Charged(k)] + [Spawned(k, Merger), Resolved(k, resolution)], k,
             if resolution.MergerResolves? then At(r, Rechecking(resolution.commit)) else End(r, AWAITING_HUMAN))
    {
      var r, e, f, g := start.row.(retries := start.row.retries + 1), Charged(k), Spawned(k, Merger), Resolved(k, resolution);
      NothingYet(start, before, k);
      Extend(start, before, before, k, start, e);
      Extend(start, before, before + [e], k, At(r, ToMerge), f);
      Extend(start, before, before + [e] + [f], k, At(r, AtMerger), g);
      hide Came;
      assert before + [e] + [f] + [g] == before + [e] + [f, g];
    }

    /** Drive one issue to the end of its turn, from whatever row it was left with. */
    method DriveIssue(k: nat) returns (out: IssueOutcome)
      requires Configured() && k < |rows|
      modifies this`rows, this`hist
      ensures OnlyRow(k) && rows[k].place == PlaceOf(out)
      ensures Came(At(old(rows)[k].(place := IMPLEMENTING), Ready), old(hist), hist, k, At(rows[k], Ended))
    {
      hide Came;
      SetPlace(k, IMPLEMENTING);
      ghost var before, start := hist, At(rows[k], Ready);
      NothingYet(start, hist, k);
      while true
        invariant OnlyRow(k) && rows[k].place == IMPLEMENTING && Came(start, before, hist, k, At(rows[k], Ready))
        decreases MAX_ADVERSARY_ROUNDS - rows[k].round
      {
        ghost var mid, at := hist, At(rows[k], Ready);
        var step := RunImplementerRound(k);
        if step.ImplDone? {
          Join(start, before, mid, hist, k, at, At(rows[k], Ended));
          return step.out;
        }
        Join(start, before, mid, hist, k, at, At(rows[k].(place := REVIEW), Reviewing(step.change)));
        mid, at := hist, At(rows[k].(place := REVIEW), Reviewing(step.change));
        var review := RunAdversaryReview(k, step.change);
        Join(start, before, mid, hist, k, at, At(rows[k], if review.Reimplement? then Ready else Ended));
        if review.ReviewDone? { return review.out; }
      }
    }

    lemma NothingYet(start: At, h: seq<Event>, k: nat)
      ensures Came(start, h, h, k, start)
    {
      assert h[|h|..] == [];
    }

    // --- many issues ----------------------------------------------------------

    /** The issue was taken up where `start` says, once the history had grown past `from`, and left as
        its row now says. */
    ghost predicate Served(start: At, from: nat, h: seq<Event>, k: nat, row: Row) {
      exists i, j :: from <= i <= j <= |h| && Play(start, h[i..j], k, rounds, reader) == Some(At(row, Ended))
    }

    lemma ServedStays(start: At, from: nat, h: seq<Event>, more: seq<Event>, k: nat, row: Row)
      requires Served(start, from, h, k, row) && h <= more
      ensures Served(start, from, more, k, row)
    {
      hide Play;
      var i, j :| from <= i <= j <= |h| && Play(start, h[i..j], k, rounds, reader) == Some(At(row, Ended));
      assert more[i..j] == h[i..j];
    }

    lemma CameServes(start: At, from: nat, before: seq<Event>, after: seq<Event>, k: nat, row: Row)
      requires from <= |before| && Came(start, before, after, k, At(row, Ended))
      ensures Served(start, from, after, k, row)
    {
      hide Play;
      assert after[|before|..|after|] == after[|before|..];
    }

    /** Driven to the end of its turn, and looked at once more if it parked. */
    ghost predicate Ticked(was: Row, from: nat, h: seq<Event>, k: nat, row: Row) {
      exists mid :: Served(At(was.(place := IMPLEMENTING), Ready), from, h, k, mid)
        && if mid.place.phase.AwaitingInboundApproval? then Served(At(mid, Waiting), from, h, k, row) else row == mid
    }

    ghost predicate InOrder()
      reads `rows, `hist
    {
      Order(rows, hist, rounds, reader)
    }

    method Ingest()
      requires InOrder()
      modifies this`rows, this`backlog
      ensures InOrder() && backlog <= old(backlog) && old(rows) <= rows
      ensures |rows| == |old(rows)| + old(backlog) - backlog
      ensures forall k :: |old(rows)| <= k < |rows| ==>
        rows[k].place == Place(Graphed, Null) && rows[k].round == rows[k].streak == rows[k].retries == 0 && rows[k].stored.None?
      ensures 4 * backlog + AllDrives(rows) <= 4 * old(backlog) + AllDrives(old(rows))
      ensures backlog == old(backlog) ==> rows == old(rows)
    {
      hide Order;
      var unblocked: nat := *;
      while unblocked > 0 && backlog > 0
        invariant InOrder() && backlog <= old(backlog) && old(rows) <= rows
        invariant |rows| == |old(rows)| + old(backlog) - backlog
        invariant forall k :: |old(rows)| <= k < |rows| ==>
          rows[k].place == Place(Graphed, Null) && rows[k].round == rows[k].streak == rows[k].retries == 0 && rows[k].stored.None?
        invariant 4 * backlog + AllDrives(rows) <= 4 * old(backlog) + AllDrives(old(rows))
      {
        var inbound: bool := *;
        var row := Row(Place(Graphed, Null), 0, 0, 0, inbound, None);
        IngestKeepsOrder(rows, hist, rounds, reader, row);
        rows := rows + [row];
        unblocked, backlog := unblocked - 1, backlog - 1;
      }
    }

    method DrivableIssueIds() returns (ids: seq<nat>)
      ensures forall j :: 0 <= j < |ids| ==> ids[j] < |rows| && IsDrivable(rows[ids[j]].place.phase)
      ensures forall i, j :: 0 <= i < j < |ids| ==> ids[i] < ids[j]
      ensures forall k :: 0 <= k < |rows| && IsDrivable(rows[k].place.phase) ==> k in ids
    {
      ids := [];
      for k := 0 to |rows|
        invariant forall j :: 0 <= j < |ids| ==> ids[j] < k && IsDrivable(rows[ids[j]].place.phase)
        invariant forall i, j :: 0 <= i < j < |ids| ==> ids[i] < ids[j]
        invariant forall i :: 0 <= i < k && IsDrivable(rows[i].place.phase) ==> i in ids
      {
        if IsDrivable(rows[k].place.phase) { ids := ids + [k]; }
      }
    }

    /** One issue's turn in a tick. */
    method TickOne(k: nat) returns (requeued: bool)
      requires Configured() && InOrder()
      requires k < |rows| && IsDrivable(rows[k].place.phase)
      modifies this`rows, this`hist
      ensures InOrder() && old(hist) <= hist
      ensures OnlyRow(k) && AllDrives(rows) < AllDrives(old(rows)) && (requeued <==> IsDrivable(rows[k].place.phase))
      ensures Served(At(old(rows)[k].(place := IMPLEMENTING), Ready), |old(hist)|, hist, k, rows[k])
    {
      hide Order, Play;
      ghost var before, table := hist, rows;
      var out := DriveIssue(k);
      assert rows == table[k := rows[k]];
      assert hist == before + hist[|before|..];
      DriveKeepsOrder(table, before, rows, hist[|before|..], k, rounds, reader);
      CameServes(At(table[k].(place := IMPLEMENTING), Ready), |before|, before, hist, k, rows[k]);
      return out.Requeued?;
    }

    /** Drive the first `budget` of the drivable issues, in ascending order, and no others. */
    method DriveSome(ids: seq<nat>) returns (requeued: bool)
      requires Configured() && InOrder()
      requires forall j :: 0 <= j < |ids| ==> ids[j] < |rows| && IsDrivable(rows[ids[j]].place.phase)
      requires forall i, j :: 0 <= i < j < |ids| ==> ids[i] < ids[j]
      modifies this`rows, this`hist
      ensures InOrder() && old(hist) <= hist && |rows| == |old(rows)|
      ensures forall j :: 0 <= j < |ids| && j < budget ==>
        Served(At(old(rows)[ids[j]].(place := IMPLEMENTING), Ready), |old(hist)|, hist, ids[j], rows[ids[j]])
      ensures forall k :: 0 <= k < |rows| && (forall j :: 0 <= j < |ids| && j < budget ==> ids[j] != k) ==> rows[k] == old(rows)[k]
      ensures AllDrives(rows) + (if |ids| < budget then |ids| else budget) <= AllDrives(old(rows))
      ensures requeued <==> exists j :: 0 <= j < |ids| && j < budget && IsDrivable(rows[ids[j]].place.phase)
    {
      hide InOrder, Served, AllDrives;
      var started := if |ids| < budget then |ids| else budget;
      requeued := false;
      ghost var last := 0;
      for i := 0 to started
        invariant InOrder() && old(hist) <= hist && |rows| == |old(rows)| && AllDrives(rows) + i <= AllDrives(old(rows))
        invariant forall j :: 0 <= j < i ==>
          Served(At(old(rows)[ids[j]].(place := IMPLEMENTING), Ready), |old(hist)|, hist, ids[j], rows[ids[j]])
        invariant forall k :: 0 <= k < |rows| && (forall j :: 0 <= j < i ==> ids[j] != k) ==> rows[k] == old(rows)[k]
        invariant if requeued then last < i && IsDrivable(rows[ids[last]].place.phase)
          else forall j :: 0 <= j < i ==> !IsDrivable(rows[ids[j]].place.phase)
      {
        ghost var h, table := hist, rows;
        var k := ids[i];
        assert rows[k] == old(rows)[k];
        var again := TickOne(k);
        forall j | 0 <= j < i
          ensures rows[ids[j]] == table[ids[j]]
          ensures Served(At(old(rows)[ids[j]].(place := IMPLEMENTING), Ready), |old(hist)|, hist, ids[j], rows[ids[j]])
        {
          assert ids[j] < k;
          ServedStays(At(old(rows)[ids[j]].(place := IMPLEMENTING), Ready), |old(hist)|, h, hist, ids[j], rows[ids[j]]);
        }
        ServedLater(At(old(rows)[k].(place := IMPLEMENTING), Ready), |old(hist)|, |h|, hist, k, rows[k]);
        if again { requeued, last := true, i; }
      }
    }

    lemma ServedLater(start: At, from: nat, later: nat, h: seq<Event>, k: nat, row: Row)
      requires from <= later && Served(start, later, h, k, row)
      ensures Served(start, from, h, k, row)
    {
      hide Play;
    }

    /** Look at one parked issue: if a human has approved it, land the change stored when it parked. */
    method ResumeOne(k: nat)
      requires Configured() && InOrder() && k < |rows| && rows[k].place.phase.AwaitingInboundApproval?
      modifies this`rows, this`hist
      ensures InOrder() && old(hist) <= hist
      ensures OnlyRow(k) && AllDrives(rows) == AllDrives(old(rows)) && IsTerminal(rows[k].place.phase)
      ensures Served(At(old(rows)[k], Waiting), |old(hist)|, hist, k, rows[k])
    {
      hide Order, Came;
      ghost var before, table, start := hist, rows, At(rows[k], Waiting);
      var approved := ReadApproval(k);
      NothingYet(start, before, k);
      Extend(start, before, before, k, start, Looked(k, approved));
      if approved && rows[k].stored.Some? {
        ghost var mid := hist;
        var change := rows[k].stored.value;
        var out := Land(k, change, false);
        Join(start, before, mid, hist, k, At(table[k], Approved(change)), At(rows[k], Ended));
      }
      assert rows == table[k := rows[k]];
      CameKeepsOrder(table, before, rows, hist, k);
      CameServes(start, |before|, before, hist, k, rows[k]);
    }

    lemma CameKeepsOrder(table: seq<Row>, before: seq<Event>, next: seq<Row>, after: seq<Event>, k: nat)
      requires Configured() && Order(table, before, rounds, reader) && k < |table| == |next| && next == table[k := next[k]]
      requires table[k].place.phase.AwaitingInboundApproval? && Came(At(table[k], Waiting), before, after, k, At(next[k], Ended))
      ensures before <= after && Order(next, after, rounds, reader)
      ensures AllDrives(next) == AllDrives(table) && IsTerminal(next[k].place.phase)
    {
      hide Order, Play;
      assert after == before + after[|before|..];
      ResumeKeepsOrder(table, before, next, after[|before|..], k, rounds, reader);
    }

    /** Look at every parked issue, and at no other. */
    method ResumeApprovedInbound()
      requires Configured() && InOrder()
      modifies this`rows, this`hist
      ensures InOrder() && old(hist) <= hist && |rows| == |old(rows)| && AllDrives(rows) == AllDrives(old(rows))
      ensures forall k :: 0 <= k < |rows| ==>
        if old(rows)[k].place.phase.AwaitingInboundApproval?
        then Served(At(old(rows)[k], Waiting), |old(hist)|, hist, k, rows[k]) && IsTerminal(rows[k].place.phase)
        else rows[k] == old(rows)[k]
    {
      hide InOrder;
      var listed := rows;
      for k := 0 to |listed|
        invariant InOrder() && old(hist) <= hist && |rows| == |listed| && AllDrives(rows) == AllDrives(listed)
        invariant forall j :: k <= j < |rows| ==> rows[j] == listed[j]
        invariant forall j :: 0 <= j < k ==>
          if listed[j].place.phase.AwaitingInboundApproval?
          then Served(At(listed[j], Waiting), |old(hist)|, hist, j, rows[j]) && IsTerminal(rows[j].place.phase)
          else rows[j] == listed[j]
      {
        hide Served;
        if !listed[k].place.phase.AwaitingInboundApproval? { continue; }
        ghost var h := hist;
        ResumeOne(k);
        ServedLater(At(listed[k], Waiting), |old(hist)|, |h|, hist, k, rows[k]);
        forall j | 0 <= j < k && listed[j].place.phase.AwaitingInboundApproval?
          ensures Served(At(listed[j], Waiting), |old(hist)|, hist, j, rows[j])
        {
          ServedStays(At(listed[j], Waiting), |old(hist)|, h, hist, j, rows[j]);
        }
      }
    }

    /** One tick: ingest, drive as many drivable issues as the budget allows, look at the parked. */
    method Tick() returns (requeued: bool)
      requires Configured() && InOrder()
      modifies this
      ensures InOrder() && old(hist) <= hist && |old(rows)| <= |rows|
      ensures forall k :: 0 <= k < |old(rows)| && IsTerminal(old(rows)[k].place.phase) ==>
        if old(rows)[k].place.phase.AwaitingInboundApproval?
        then Served(At(old(rows)[k], Waiting), |old(hist)|, hist, k, rows[k])
        else rows[k] == old(rows)[k]
      ensures forall k :: 0 <= k < |old(rows)| && IsDrivable(old(rows)[k].place.phase) ==>
        if Ahead(old(rows), k) < budget then Ticked(old(rows)[k], |old(hist)|, hist, k, rows[k]) else rows[k] == old(rows)[k]
      ensures requeued ==> exists k :: 0 <= k < |rows| && IsDrivable(rows[k].place.phase)
      ensures 4 * backlog + AllDrives(rows) < 4 * old(backlog) + AllDrives(old(rows))
        || (!requeued && forall k :: 0 <= k < |rows| ==> !IsDrivable(rows[k].place.phase))
    {
      hide InOrder, Served, AllDrives, Ahead, Ticked;
      Ingest();
      var ids := DrivableIssueIds();
      ghost var table := rows;
      requeued := DriveSome(ids);
      ghost var h := hist;
      ghost var driven := rows;
      if requeued {
        ghost var j :| 0 <= j < |ids| && j < budget && IsDrivable(driven[ids[j]].place.phase);
        assert !driven[ids[j]].place.phase.AwaitingInboundApproval?;
      }
      ResumeApprovedInbound();
      EveryTurn(old(rows), table, ids, |old(hist)|, h, driven, hist, rows);
    }

    lemma EveryTurn(was: seq<Row>, table: seq<Row>, ids: seq<nat>, from: nat, h: seq<Event>, driven: seq<Row>, more: seq<Event>, next: seq<Row>)
      requires was <= table && ListsDrivable(table, ids) && |table| == |driven| == |next| && from <= |h| && h <= more
      requires forall k :: 0 <= k < |driven| && (forall j :: 0 <= j < |ids| && j < budget ==> ids[j] != k) ==> driven[k] == table[k]
      requires forall j :: 0 <= j < |ids| && j < budget ==> Served(At(table[ids[j]].(place := IMPLEMENTING), Ready), from, h, ids[j], driven[ids[j]])
      requires forall k :: 0 <= k < |next| ==>
        if driven[k].place.phase.AwaitingInboundApproval? then Served(At(driven[k], Waiting), |h|, more, k, next[k]) else next[k] == driven[k]
      ensures forall k :: 0 <= k < |was| && IsTerminal(was[k].place.phase) ==>
        if was[k].place.phase.AwaitingInboundApproval? then Served(At(was[k], Waiting), from, more, k, next[k]) else next[k] == was[k]
      ensures forall k :: 0 <= k < |was| && IsDrivable(was[k].place.phase) ==>
        if Ahead(was, k) < budget then Ticked(was[k], from, more, k, next[k]) else next[k] == was[k]
    {
      hide Served, Ahead, Ticked;
      forall k | 0 <= k < |was| && was[k].place.phase.AwaitingInboundApproval?
        ensures Served(At(was[k], Waiting), from, more, k, next[k])
      {
        assert driven[k] == table[k] == was[k];
        ServedLater(At(was[k], Waiting), from, |h|, more, k, next[k]);
      }
      forall k | 0 <= k < |was| && IsDrivable(was[k].place.phase)
        ensures if Ahead(was, k) < budget then Ticked(was[k], from, more, k, next[k]) else next[k] == was[k]
      {
        TurnsTaken(was, table, ids, from, h, driven[k], more, k, next[k]);
      }
    }

    /** What driving the first of the list and then looking at the parked comes to for one issue. */
    lemma TurnsTaken(was: seq<Row>, table: seq<Row>, ids: seq<nat>, from: nat, h: seq<Event>, mid: Row, more: seq<Event>, k: nat, row: Row)
      requires was <= table && ListsDrivable(table, ids) && k < |was| && IsDrivable(was[k].place.phase) && from <= |h| && h <= more
      requires (forall j :: 0 <= j < |ids| && j < budget ==> ids[j] != k) ==> mid == was[k]
      requires forall j :: 0 <= j < |ids| && j < budget && ids[j] == k ==> Served(At(was[k].(place := IMPLEMENTING), Ready), from, h, k, mid)
      requires if mid.place.phase.AwaitingInboundApproval? then Served(At(mid, Waiting), |h|, more, k, row) else row == mid
      ensures if Ahead(was, k) < budget then Ticked(was[k], from, more, k, row) else row == was[k]
    {
      hide Served;
      assert table[k] == was[k];
      var j :| 0 <= j < |ids| && ids[j] == k;
      AheadOfPrefix(was, table, k);
      Ranks(table, ids, k, j);
      if j < budget {
        ServedStays(At(was[k].(place := IMPLEMENTING), Ready), from, h, more, k, mid);
        if mid.place.phase.AwaitingInboundApproval? { ServedLater(At(mid, Waiting), from, |h|, more, k, row); }
      }
    }

    /** The pump runs until nothing is left to drive, and it always gets there. From fresh rows every
        issue has then had at most six implementers, six times `rounds` adversaries and one Merger,
        every change handed to landing had earned it, and no peer's issue was landed unapproved. */
    method RunUntilIdle()
      requires Configured() && InOrder()
      modifies this
      ensures Proper(hist, rounds, reader) && GateHolds(rows, hist)
      ensures forall k :: 0 <= k < |rows| ==>
        && IsTerminal(rows[k].place.phase)
        && Spawns(hist, k, Implementer) <= MAX_ADVERSARY_ROUNDS
        && Spawns(hist, k, Adversary) <= MAX_ADVERSARY_ROUNDS * rounds
        && Spawns(hist, k, Merger) <= MAX_MERGER_SPAWNS
    {
      while true
        invariant InOrder()
        decreases 4 * backlog + AllDrives(rows)
      {
        hide InOrder;
        var requeued := Tick();
        var drivable := DrivableIssueIds();
        if !requeued && drivable == [] { break; }
        if drivable != [] { assert IsDrivable(rows[drivable[0]].place.phase); }
      }
      hide Spawns, Charges, Proper, GateHolds;
      forall k | 0 <= k < |rows|
        ensures Spawns(hist, k, Implementer) <= MAX_ADVERSARY_ROUNDS
        ensures Spawns(hist, k, Adversary) <= MAX_ADVERSARY_ROUNDS * rounds
        ensures Spawns(hist, k, Merger) <= MAX_MERGER_SPAWNS && IsTerminal(rows[k].place.phase)
      {
        assert WithinBudget(rows[k], hist, k, rounds);
        AtMost(rounds, Spawns(hist, k, Implementer), MAX_ADVERSARY_ROUNDS);
      }
    }

    lemma AtMost(n: nat, spent: nat, cap: nat)
      requires spent <= cap
      ensures n * spent <= cap * n
    {
    }
  }
}
