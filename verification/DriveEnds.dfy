/** How a drive or a resume ends, read off what happened last. */
module DriveEnds {
  import opened Common
  import opened State
  import opened Artifacts
  import opened History
  import opened Drive

  /** The event a stage has just been reached by. */
  predicate JustHad(h: seq<Event>, at: At, k: nat) {
    at.stage.Ready? || at.stage.Waiting? || at.stage.Ended? || (h != [] &&
      var e := h[|h| - 1];
      match at.stage
      case Building => e == Spawned(k, Implementer)
      case Testing(c) => e == Worked(k, WorkCommits(c))
      case AtGate(c) => e.Handed? && e.change == c
      case Cleared(_) => e.Looked?
      case Approved(_) => e.Looked?
      case Conflicted => e.Tried?
      case ToMerge => e.Charged?
      case AtMerger => e == Spawned(k, Merger)
      case Rechecking(c) => e == Resolved(k, MergerResolves(c))
      case Retrying(_) => e.Checked?
      case _ => true)
  }

  lemma {:induction false} PlayJustHad(start: At, h: seq<Event>, k: nat, n: nat, reader: Reader)
    requires Opens(start) && Play(start, h, k, n, reader).Some?
    ensures JustHad(h, Play(start, h, k, n, reader).value, k)
    ensures h != [] ==> !Play(start, h, k, n, reader).value.stage.Waiting?
    decreases |h|
  {
    hide Next, JustHad;
    if h == [] {
      NothingHad(start, k);
    } else {
      PlayJustHad(start, h[..|h| - 1], k, n, reader);
      JustHadNext(h, Play(start, h[..|h| - 1], k, n, reader).value, k, n, reader);
    }
  }

  lemma NothingHad(start: At, k: nat)
    requires Opens(start)
    ensures JustHad([], start, k)
  {
  }

  lemma JustHadNext(h: seq<Event>, at: At, k: nat, n: nat, reader: Reader)
    requires h != [] && Next(at, h[|h| - 1], k, n, reader).Some?
    ensures JustHad(h, Next(at, h[|h| - 1], k, n, reader).value, k)
    ensures !Next(at, h[|h| - 1], k, n, reader).value.stage.Waiting?
  {
    hide VerdictOf;
  }

  // What the last event was.

  predicate MergedLast(e: Event) {
    (e.Tried? && e.landed.LandMerged?) || (e.Retried? && e.moved)
  }

  predicate OpenedLast(e: Event) {
    e.Tried? && e.landed.LandPrOpen?
  }

  /** Landing refused, or the one Merger spent, failed, rejected by QA or refused in its turn. */
  predicate LeftToHuman(h: seq<Event>, was: Row)
    requires h != []
  {
    var e := h[|h| - 1];
    || (e.Tried? && e.landed.LandParked?)
    || (e.Tried? && e.landed.LandConflict? && was.retries >= 1)
    || (e.Resolved? && !e.resolution.MergerResolves?)
    || (e.Checked? && |h| > 1 && h[|h| - 2].Resolved? && !e.qa.QaPass?)
    || (e.Retried? && !e.moved)
  }

  predicate FailedQa(h: seq<Event>)
    requires h != []
  {
    h[|h| - 1].Checked? && h[|h| - 1].qa.QaFail? && |h| > 1 && h[|h| - 2].Worked?
  }

  /** No work, a broken gate, no review, a budget used up, or nothing to open a pull request with. */
  predicate GivenUp(h: seq<Event>, was: Row, reader: Reader)
    requires h != []
  {
    var e := h[|h| - 1];
    || (e.Worked? && !e.work.WorkCommits?)
    || (e.Checked? && |h| > 1 && h[|h| - 2].Worked? && e.qa.QaBroken?)
    || (FailedQa(h) && was.round + 1 >= 3)
    || (e.Judged? && VerdictOf(reader, e.attack).RoundPoisoned?)
    || (e.Judged? && VerdictOf(reader, e.attack).RoundFindings? && was.round + 1 >= 6)
    || (e.Tried? && e.landed.LandNoToken?)
  }

  /** Held at the gate, on the change handed to it; or looked at while parked, and not let go. */
  predicate HeldBack(h: seq<Event>, was: Row, r: Row)
    requires h != []
  {
    h[|h| - 1].Looked? &&
    if |h| > 1 then
      h[|h| - 2].Handed? && was.inbound && !h[|h| - 1].approved && r == was.(place := PARKED, stored := Some(h[|h| - 2].change))
    else
      was.place.phase.AwaitingInboundApproval? && r == was && (!h[|h| - 1].approved || was.stored.None?)
  }

  lemma LastStep(start: At, h: seq<Event>, k: nat, n: nat, reader: Reader)
    requires h != [] && Play(start, h, k, n, reader).Some?
    ensures var front := h[..|h| - 1];
      && Play(start, front, k, n, reader).Some?
      && Next(Play(start, front, k, n, reader).value, h[|h| - 1], k, n, reader) == Play(start, h, k, n, reader)
  {
    hide Next;
  }

  /** The row as the last event found it. */
  function Before(start: At, h: seq<Event>, k: nat, n: nat, reader: Reader): Row {
    if h == [] then start.row
    else match Play(start, h[..|h| - 1], k, n, reader) case None => start.row case Some(at) => at.row
  }

  predicate EndsAs(h: seq<Event>, was: Row, r: Row, reader: Reader)
    requires h != []
  {
    && (r.place == MERGED <==> MergedLast(h[|h| - 1]))
    && (r.place == PR_OPEN <==> OpenedLast(h[|h| - 1]))
    && (r.place == AWAITING_HUMAN <==> LeftToHuman(h, was))
    && (r.place == ERROR <==> GivenUp(h, was, reader))
    && (r.place == IMPLEMENTING <==> FailedQa(h) && was.round + 1 < 3)
    && (r.place.phase.AwaitingInboundApproval? <==> HeldBack(h, was, r))
    && (r.place == IMPLEMENTING ==> r == was.(round := was.round + 1, streak := 0, place := IMPLEMENTING))
    && (!r.place.phase.AwaitingInboundApproval? && r.place != IMPLEMENTING ==> r == was.(place := r.place))
  }

  lemma StepEnds(front: seq<Event>, at: At, e: Event, k: nat, n: nat, reader: Reader)
    requires JustHad(front, at, k) && Placed(at) && (at.stage.Waiting? ==> front == []) && (at.stage.AtGate? ==> front != [])
    requires Next(at, e, k, n, reader).Some? && Next(at, e, k, n, reader).value.stage.Ended?
    ensures EndsAs(front + [e], at.row, Next(at, e, k, n, reader).value.row, reader)
  {
    hide VerdictOf;
    var h := front + [e];
    assert h[|h| - 1] == e && (front != [] ==> h[|h| - 2] == front[|front| - 1]);
  }

  /** How an issue ends its turn, exactly: merged iff a landing merged or a Merger's retry moved `main`;
      at pr-open iff a pull request was opened; left to a human iff landing was refused or its one Merger
      came to nothing; parked iff it came from a peer and the last look found no approval; requeued iff QA
      failed with rounds to spare; at orchestrator-error iff it was given up. Nothing else in the row
      changes but what is said here. */
  lemma {:induction false} EndsExactly(start: At, h: seq<Event>, k: nat, n: nat, reader: Reader)
    requires Opens(start) && Placed(start) && h != []
    requires Play(start, h, k, n, reader).Some? && Play(start, h, k, n, reader).value.stage.Ended?
    ensures EndsAs(h, Before(start, h, k, n, reader), Play(start, h, k, n, reader).value.row, reader)
  {
    hide Next, EndsAs, JustHad, Placed;
    var front := h[..|h| - 1];
    LastStep(start, h, k, n, reader);
    PlayJustHad(start, front, k, n, reader);
    PlayIsPlaced(start, front, k, n, reader);
    GateHasHistory(start, front, k, n, reader);
    assert h == front + [h[|h| - 1]];
    StepEnds(front, Play(start, front, k, n, reader).value, h[|h| - 1], k, n, reader);
  }

  /** Looked at and not let through, whatever row that leaves. */
  predicate NotLetThrough(h: seq<Event>, was: Row)
    requires h != []
  {
    h[|h| - 1].Looked? &&
    if |h| > 1 then was.inbound && !h[|h| - 1].approved else !h[|h| - 1].approved || was.stored.None?
  }

  predicate Closing(h: seq<Event>, was: Row, reader: Reader)
    requires h != []
  {
    || MergedLast(h[|h| - 1]) || OpenedLast(h[|h| - 1]) || LeftToHuman(h, was) || GivenUp(h, was, reader)
    || FailedQa(h) || NotLetThrough(h, was)
  }

  /** And it ends there exactly then: any other event leaves the turn going on, a first conflict, a change
      QA passed or a clean round too few among them. */
  lemma {:induction false} StopsExactly(start: At, h: seq<Event>, k: nat, n: nat, reader: Reader)
    requires Opens(start) && h != [] && Play(start, h, k, n, reader).Some?
    ensures Play(start, h, k, n, reader).value.stage.Ended? <==> Closing(h, Before(start, h, k, n, reader), reader)
  {
    hide Next, Closing, JustHad;
    var front := h[..|h| - 1];
    LastStep(start, h, k, n, reader);
    PlayJustHad(start, front, k, n, reader);
    GateHasHistory(start, front, k, n, reader);
    assert h == front + [h[|h| - 1]];
    StepStops(front, Play(start, front, k, n, reader).value, h[|h| - 1], k, n, reader);
  }

  lemma StepStops(front: seq<Event>, at: At, e: Event, k: nat, n: nat, reader: Reader)
    requires JustHad(front, at, k) && (at.stage.Waiting? ==> front == []) && (at.stage.AtGate? ==> front != [])
    requires Next(at, e, k, n, reader).Some?
    ensures Next(at, e, k, n, reader).value.stage.Ended? <==> Closing(front + [e], at.row, reader)
  {
    hide VerdictOf;
    var h := front + [e];
    assert h[|h| - 1] == e && (front != [] ==> h[|h| - 2] == front[|front| - 1]);
  }

  lemma GateHasHistory(start: At, h: seq<Event>, k: nat, n: nat, reader: Reader)
    requires Opens(start) && Play(start, h, k, n, reader).Some?
    ensures Play(start, h, k, n, reader).value.stage.AtGate? ==> h != []
    ensures Play(start, h, k, n, reader).value.stage.Waiting? ==> h == []
  {
    PlayJustHad(start, h, k, n, reader);
    hide Next;
  }

  /** At every point the row is where the stage says. */
  lemma {:induction false} PlayIsPlaced(start: At, h: seq<Event>, k: nat, n: nat, reader: Reader)
    requires Placed(start) && Play(start, h, k, n, reader).Some?
    ensures Placed(Play(start, h, k, n, reader).value)
    decreases |h|
  {
    hide Next, Placed;
    if h != [] {
      PlayIsPlaced(start, h[..|h| - 1], k, n, reader);
      PlacedNext(Play(start, h[..|h| - 1], k, n, reader).value, h[|h| - 1], k, n, reader);
    }
  }

  /** And sent back to implementing inside the same turn only by findings, with the next round, and no
      streak to carry over. */
  lemma {:induction false} SentBackExactly(start: At, h: seq<Event>, k: nat, n: nat, reader: Reader)
    requires Opens(start) && h != [] && Play(start, h, k, n, reader).Some?
    ensures var at, e, was := Play(start, h, k, n, reader).value, h[|h| - 1], Before(start, h, k, n, reader);
      && (at.stage.Ready? <==> e.Judged? && VerdictOf(reader, e.attack).RoundFindings? && was.round + 1 < 6)
      && (at.stage.Ready? ==> at.row == was.(round := was.round + 1, streak := 0, place := IMPLEMENTING))
  {
    LastStep(start, h, k, n, reader);
    hide Play, VerdictOf;
  }
}
