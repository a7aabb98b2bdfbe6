/** What the gate does to a peer's issue over one undisturbed turn, and while the issue is parked. */
module GateRuns {
  import opened Common
  import opened State
  import opened InboundGate

  /** The events of a turn in which nothing crashes: work, QA, review, and the gate. */
  function Turn(d: Desk, commit: nat, qa: Verdict, review: Verdict): seq<Event> {
    [Prepare(commit), Register, Test, Qa(qa)]
    + if !qa.Good? then [Discard, Settle]
      else [Event.Enter, Event.Forget] + Judging(d, review)
  }

  /** All of them, one after the other. */
  ghost predicate Leading(d: Desk, es: seq<Event>)
    decreases |es|
  {
    es == [] || (Enabled(d, es[0]) && Leading(After(d, es[0]), es[1..]))
  }

  function EndOf(d: Desk, es: seq<Event>): Desk
    requires Leading(d, es)
    decreases |es|
  {
    if es == [] then d else EndOf(After(d, es[0]), es[1..])
  }

  lemma LeadingOn(d: Desk, e: Event, es: seq<Event>)
    requires Enabled(d, e) && Leading(After(d, e), es)
    ensures Leading(d, [e] + es) && EndOf(d, [e] + es) == EndOf(After(d, e), es)
  {
    assert ([e] + es)[1..] == es;
  }

  /** About to be driven. */
  predicate Drivable(d: Desk) {
    d.pc.Idle? && d.row.Some? && IsDrivable(d.row.value.phase) && d.row.value.stored.None?
  }

  lemma WorkLeads(d: Desk, commit: nat, qa: Verdict, rest: seq<Event>) returns (v: Desk)
    requires Drivable(d)
    ensures var s := Space(d.row.value.round, commit);
      && v == d.(row := Some(d.row.value.(phase := QaGate)), worker := None, spaces := d.spaces + {s},
                 pc := if qa.Good? then Passed(s) else Rejected(s, qa))
      && (Leading(v, rest) ==>
            Leading(d, [Prepare(commit), Register, Test, Qa(qa)] + rest)
            && EndOf(d, [Prepare(commit), Register, Test, Qa(qa)] + rest) == EndOf(v, rest))
  {
    var a := After(d, Prepare(commit));
    var b := After(a, Register);
    var c := After(b, Test);
    v := After(c, Qa(qa));
    assert Enabled(d, Prepare(commit)) && Enabled(a, Register) && Enabled(b, Test) && Enabled(c, Qa(qa));
    hide After, Enabled;
    if Leading(v, rest) {
      LeadingOn(c, Qa(qa), rest);
      LeadingOn(b, Test, [Qa(qa)] + rest);
      LeadingOn(a, Register, [Event.Test] + ([Qa(qa)] + rest));
      LeadingOn(d, Prepare(commit), [Register] + ([Event.Test] + ([Qa(qa)] + rest)));
      assert [Prepare(commit)] + ([Register] + ([Event.Test] + ([Qa(qa)] + rest))) == [Prepare(commit), Register, Test, Qa(qa)] + rest;
    }
  }

  /** One step that goes on to an end already known. */
  lemma Goes(d: Desk, e: Event, es: seq<Event>, last: Desk)
    requires Enabled(d, e) && Leading(After(d, e), es) && EndOf(After(d, e), es) == last
    ensures Leading(d, [e] + es) && EndOf(d, [e] + es) == last
  {
    hide After, Enabled;
    LeadingOn(d, e, es);
  }

  lemma Stands(d: Desk)
    ensures Leading(d, []) && EndOf(d, []) == d
  {
  }

  /** What QA rejects, or cannot judge, is forgotten and handed to nobody. */
  lemma RejectedEnds(v: Desk)
    requires v.pc.Rejected? && v.row.Some?
    ensures var r, verdict := v.row.value, v.pc.verdict;
      && Leading(v, [Discard, Settle])
      && EndOf(v, [Discard, Settle]) == v.(spaces := v.spaces - {v.pc.space}, pc := Idle,
           row := Some(if verdict.Bad? then r.(phase := Implementing, round := r.round + 1) else r.(phase := OrchestratorError)))
  {
    var a := After(v, Discard);
    var b := After(a, Settle);
    Stands(b);
    Goes(a, Settle, [], b);
    Goes(v, Discard, [Event.Settle], b);
  }

  /** A reviewed change: sent back, given up, handed over, or parked. */
  function Settled(a: Desk, c: nat, review: Verdict): Desk
    requires a.row.Some?
  {
    var r := a.row.value;
    match review
    case Bad => a.(row := Some(r.(phase := Implementing, round := r.round + 1)), pc := Idle)
    case Broken => a.(row := Some(r.(phase := OrchestratorError)), pc := Idle)
    case Good =>
      if !a.inbound || APPROVED in a.labels then
        a.(row := Some(r.(phase := Landing)), pc := Land(c), judged := a.judged + {c}, seen := a.seen || a.human,
           handed := a.handed + [Handoff(c, r.stored, a.human)])
      else a.(row := Some(r.(phase := AwaitingInboundApproval, stored := Some(c))), pc := Idle, judged := a.judged + {c})
  }

  function Judging(d: Desk, review: Verdict): seq<Event> {
    [Judge(review)] + if !review.Good? then [] else if d.inbound && APPROVED !in d.labels then [ReadGate, FinishPark] else [ReadGate]
  }

  /** What review finds good goes to the gate, and is handed over there or parked. */
  lemma ReviewedEnds(a: Desk, review: Verdict)
    requires a.pc.Review? && a.row.Some?
    ensures Leading(a, Judging(a, review)) && EndOf(a, Judging(a, review)) == Settled(a, a.pc.change, review)
  {
    var b, last := After(a, Judge(review)), Settled(a, a.pc.change, review);
    Stands(last);
    if !review.Good? {
      assert [Judge(review)] + [] == [Judge(review)];
      Goes(a, Judge(review), [], last);
    } else {
      var c := After(b, ReadGate);
      if a.inbound && APPROVED !in a.labels {
        Goes(c, FinishPark, [], last);
        Goes(b, ReadGate, [Event.FinishPark], last);
        assert [ReadGate] + [FinishPark] == [ReadGate, FinishPark];
        Goes(a, Judge(review), [ReadGate, FinishPark], last);
      } else {
        Goes(b, ReadGate, [], last);
        Goes(a, Judge(review), [ReadGate], last);
      }
    }
  }

  lemma PassedEnds(v: Desk, review: Verdict)
    requires v.pc.Passed? && v.row.Some?
    ensures var s, es := v.pc.space, [Event.Enter, Event.Forget] + Judging(v, review);
      var a := v.(row := Some(v.row.value.(phase := AdversaryReview)), spaces := v.spaces - {s}, pc := Review(s.commit));
      Leading(v, es) && EndOf(v, es) == Settled(a, s.commit, review)
  {
    var a := After(v, Event.Enter);
    var b := After(a, Event.Forget);
    var es, last := Judging(v, review), Settled(b, b.pc.change, review);
    ReviewedEnds(b, review);
    hide Judging, Settled;
    Goes(a, Event.Forget, es, last);
    Goes(v, Event.Enter, [Event.Forget] + es, last);
    assert [Event.Enter] + ([Event.Forget] + es) == [Event.Enter, Event.Forget] + es;
  }

  /** Where one turn leaves the issue. */
  predicate TurnEnds(d: Desk, commit: nat, qa: Verdict, review: Verdict, e: Desk)
    requires Drivable(d)
  {
    var r, good, pass := d.row.value, qa.Good? && review.Good?, !d.inbound || APPROVED in d.labels;
    && e.inbound == d.inbound && e.labels == d.labels && e.human == d.human
    && e.worker.None? && e.spaces == d.spaces - {Space(r.round, commit)}
    && e.handed == (if good && pass then d.handed + [Handoff(commit, None, d.human)] else d.handed)
    && e.judged == (if good then d.judged + {commit} else d.judged)
    && e.row == Some(
         if good && pass then r.(phase := Landing)
         else if good then r.(phase := AwaitingInboundApproval, stored := Some(commit))
         else if qa.Bad? || (qa.Good? && review.Bad?) then r.(phase := Implementing, round := r.round + 1)
         else r.(phase := OrchestratorError))
    && e.pc == if good && pass then Land(commit) else Idle
  }

  /** A turn of any issue, local or a peer's, whatever QA and review say of the work: it can happen, it
      forgets its workspace and its worker, and it hands the change to landing exactly when both are
      satisfied and, for a peer's issue, the approval label is on; without the label that change is
      parked. */
  lemma TurnEndsExactly(d: Desk, commit: nat, qa: Verdict, review: Verdict)
    requires Drivable(d)
    ensures Leading(d, Turn(d, commit, qa, review)) && TurnEnds(d, commit, qa, review, EndOf(d, Turn(d, commit, qa, review)))
  {
    hide Leading, EndOf, After, Enabled, TurnEnds, Settled;
    if !qa.Good? {
      var v := WorkLeads(d, commit, qa, [Discard, Settle]);
      RejectedEnds(v);
      RejectedTurn(d, commit, qa, review, EndOf(v, [Discard, Settle]));
    } else {
      var es := [Event.Enter, Event.Forget] + Judging(d, review);
      var v := WorkLeads(d, commit, qa, es);
      PassedEnds(v, review);
      assert Turn(d, commit, qa, review) == [Prepare(commit), Register, Test, Qa(qa)] + es;
      PassedTurn(d, commit, review, EndOf(v, es));
    }
  }

  lemma RejectedTurn(d: Desk, commit: nat, qa: Verdict, review: Verdict, e: Desk)
    requires Drivable(d) && !qa.Good?
    requires var r, s := d.row.value, Space(d.row.value.round, commit);
      e == d.(row := Some(if qa.Bad? then r.(phase := Implementing, round := r.round + 1) else r.(phase := OrchestratorError)),
              worker := None, spaces := d.spaces + {s} - {s}, pc := Idle)
    ensures TurnEnds(d, commit, qa, review, e)
  {
  }

  lemma PassedTurn(d: Desk, commit: nat, review: Verdict, e: Desk)
    requires Drivable(d)
    requires var r, s := d.row.value, Space(d.row.value.round, commit);
      e == Settled(d.(row := Some(r.(phase := AdversaryReview)), worker := None, spaces := d.spaces + {s} - {s}, pc := Review(commit)), commit, review)
    ensures TurnEnds(d, commit, Good, review, e)
  {
  }

  /** A worker that stalls leaves nothing behind but an issue given up. */
  lemma StalledTurnEnds(d: Desk, commit: nat)
    requires Drivable(d)
    ensures var es, s := [Prepare(commit), Register, Stall, Discard, Settle], Space(d.row.value.round, commit);
      && Leading(d, es)
      && EndOf(d, es) == d.(row := Some(d.row.value.(phase := OrchestratorError)), worker := None, spaces := d.spaces - {s})
  {
    var s, last := Space(d.row.value.round, commit), d.row.value.(phase := OrchestratorError);
    var a := After(d, Prepare(commit));
    var b := After(a, Register);
    var c := After(b, Stall);
    RejectedEnds(c);
    assert d.spaces + {s} - {s} == d.spaces - {s};
    var end := EndOf(c, [Discard, Settle]);
    hide Leading, EndOf;
    Goes(b, Stall, [Discard, Settle], end);
    Goes(a, Register, [Stall] + [Discard, Settle], end);
    Goes(d, Prepare(commit), [Register] + ([Stall] + [Discard, Settle]), end);
    assert [Prepare(commit)] + ([Register] + ([Stall] + [Discard, Settle])) == [Prepare(commit), Register, Stall, Discard, Settle];
  }

  // --- adopted --------------------------------------------------------------

  function Strips(n: nat): (es: seq<Event>)
    ensures |es| == n
  {
    seq(n, _ => StripOne)
  }

  lemma {:induction false} StrippedEnds(d: Desk)
    requires d.pc.Strip? && d.row.None?
    ensures var es, bad := Strips(|d.pc.todo|) + [Adopt], Bad(d.pc.todo);
      && Leading(d, es)
      && EndOf(d, es) == d.(labels := d.labels - bad, human := d.human && APPROVED !in bad, row := Some(Row(Graphed, 0, None)), pc := Idle)
    decreases |d.pc.todo|
  {
    hide Leading, EndOf, After, Enabled, Bad;
    var todo := d.pc.todo;
    if todo == [] {
      AdoptStep(d);
      assert d.labels - {} == d.labels;
    } else {
      StripStep(d);
      var v, es := After(d, StripOne), Strips(|todo| - 1) + [Adopt];
      StrippedEnds(v);
      assert Strips(|todo|) + [Adopt] == [Event.StripOne] + es;
      Goes(d, StripOne, es, EndOf(v, es));
    }
  }

  lemma StripStep(d: Desk)
    requires d.pc.Strip? && d.row.None? && d.pc.todo != []
    ensures Enabled(d, StripOne)
    ensures var v, bad, later := After(d, StripOne), Bad(d.pc.todo), Bad(d.pc.todo[1..]);
      && v == d.(labels := v.labels, human := v.human, pc := Strip(d.pc.todo[1..]))
      && v.labels - later == d.labels - bad && (v.human && APPROVED !in later <==> d.human && APPROVED !in bad)
  {
    var todo := d.pc.todo;
    assert todo == [todo[0]] + todo[1..];
    hide IsForbidden;
    assert Bad(todo) == Bad(todo[1..]) + if IsForbidden(todo[0]) then {todo[0]} else {};
  }

  lemma AdoptStep(d: Desk)
    requires d.pc.Strip? && d.row.None? && d.pc.todo == []
    ensures Leading(d, Strips(0) + [Adopt]) && Bad(d.pc.todo) == {}
    ensures EndOf(d, Strips(0) + [Adopt]) == d.(row := Some(Row(Graphed, 0, None)), pc := Idle)
  {
    var last := After(d, Adopt);
    Stands(last);
    Goes(d, Adopt, [], last);
    assert Strips(0) + [Adopt] == [Event.Adopt];
  }

  /** The labels a peer must not set. */
  function Bad(tags: seq<string>): set<string> {
    set l | l in tags && IsForbidden(l)
  }

  lemma NothingBad()
    ensures Bad([]) == {}
  {
  }

  /** Adoption: a peer's issue loses exactly the listed labels its peer must not set; the labels of a local
      issue are not looked at. */
  lemma AdoptedExactly(d: Desk, listed: seq<string>)
    requires d.row.None? && d.pc.Idle? && Enabled(d, List(listed))
    ensures var es := [List(listed)] + (Strips(if d.inbound then |listed| else 0) + [Adopt]);
      var bad := if d.inbound then Bad(listed) else {};
      && Leading(d, es)
      && EndOf(d, es) == d.(labels := d.labels - bad, human := d.human && APPROVED !in bad, row := Some(Row(Graphed, 0, None)), pc := Idle)
  {
    var v := After(d, List(listed));
    StrippedEnds(v);
    NothingBad();
    assert v.pc.todo == if d.inbound then listed else [];
    var es := Strips(|v.pc.todo|) + [Adopt];
    var last := EndOf(v, es);
    hide Leading, EndOf, IsForbidden;
    Goes(d, List(listed), es, last);
  }

  // --- parked ---------------------------------------------------------------

  predicate IsParked(d: Desk) {
    d.row.Some? && d.row.value.phase.AwaitingInboundApproval? && d.row.value.stored.Some? && (d.pc.Idle? || d.pc.Recovering?)
  }

  /** Without a human's label nothing moves a parked issue, crashes and restarts included. */
  lemma {:induction false} ParkedStaysParked(d: Desk, es: seq<Event>)
    requires d.inbound && IsParked(d) && APPROVED !in d.labels && Leading(d, es)
    requires forall k :: 0 <= k < |es| ==> !(es[k].Label? && es[k].tag == APPROVED && es[k].on)
    ensures var e := EndOf(d, es); IsParked(e) && e.row == d.row && e.handed == d.handed && APPROVED !in e.labels
    decreases |es|
  {
    if es != [] {
      ParkedStep(d, es[0]);
      hide After, Enabled;
      ParkedStaysParked(After(d, es[0]), es[1..]);
    }
  }

  lemma ParkedStep(d: Desk, e: Event)
    requires d.inbound && IsParked(d) && APPROVED !in d.labels && Enabled(d, e) && !(e.Label? && e.tag == APPROVED && e.on)
    ensures var v := After(d, e); v.inbound && IsParked(v) && v.row == d.row && v.handed == d.handed && APPROVED !in v.labels
  {
  }

  /** With it, the issue lands, and what lands is the stored change. */
  lemma ApprovedLands(d: Desk)
    requires d.inbound && IsParked(d) && d.pc.Idle?
    ensures var es, c := [Label(APPROVED, true), Event.Resume, ReadGate], d.row.value.stored;
      && Leading(d, es)
      && EndOf(d, es) == d.(labels := d.labels + {APPROVED}, human := true, seen := true, pc := Land(c.value),
           row := Some(d.row.value.(phase := Landing)), handed := d.handed + [Handoff(c.value, c, true)])
  {
    var a := After(d, Label(APPROVED, true));
    var b := After(a, Event.Resume);
    var last := After(b, ReadGate);
    Stands(last);
    Goes(b, ReadGate, [], last);
    Goes(a, Event.Resume, [ReadGate], last);
    Goes(d, Label(APPROVED, true), [Event.Resume, ReadGate], last);
    hide Leading, EndOf;
    assert [Label(APPROVED, true)] + [Event.Resume, ReadGate] == [Label(APPROVED, true), Event.Resume, ReadGate];
  }

  // --- restarted ------------------------------------------------------------

  predicate InWork(p: Phase) {
    p.Implementing? || p.QaGate? || p.AdversaryReview?
  }

  /** What a restart has to land: what was stored when the issue was parked, if it was already landing;
      otherwise what a workspace of its round still holds. */
  function ToLand(r: Row, found: Option<Space>): Option<nat> {
    if r.phase.Landing? && r.stored.Some? then r.stored
    else match found case None => None case Some(s) => Some(s.commit)
  }

  /** What a restart makes of an issue: work is started over with its registered workspace forgotten;
      what had converged or was landing is handed to landing, or given up when there is nothing to land;
      any other issue is left as it is. */
  lemma RestartEndsExactly(d: Desk, found: Option<Space>)
    requires d.pc.Recovering? && d.row.Some? && Enabled(d, Recover(found))
    ensures var r, e := d.row.value, After(d, Recover(found));
      if InWork(r.phase) then
        e == d.(row := Some(r.(phase := Implementing)), worker := None, pc := Idle,
                spaces := d.spaces - (if d.worker.Some? then {d.worker.value} else {}))
      else if r.phase.Converged? || r.phase.Landing? then
        match ToLand(r, found)
        case None => e == d.(row := Some(r.(phase := OrchestratorError)), pc := Idle)
        case Some(c) => e == d.(row := Some(r.(phase := Landing)), pc := Land(c), handed := d.handed + [Handoff(c, r.stored, d.seen)])
      else e == d.(pc := Idle)
  {
    assert d.spaces - {} == d.spaces;
  }

  /** A restart that dies while it cleans up, before or after dropping the worker row, is made up for by the
      next: what comes of the two is what comes of one. */
  lemma CutRestartsEndTheSame(d: Desk, found: Option<Space>, later: Option<Space>)
    requires d.pc.Recovering? && RollsBack(d) && Enabled(d, Recover(found))
    ensures var a := After(d, Sweep);
      Enabled(a, Drop) && Enabled(a, Crash) && Enabled(After(a, Drop), Crash)
      && var b, c := After(a, Crash), After(After(a, Drop), Crash);
      && (Enabled(b, Recover(later)) ==> After(b, Recover(later)) == After(d, Recover(found)))
      && (Enabled(c, Recover(later)) ==> After(c, Recover(later)) == After(d, Recover(found)))
  {
    CleaningSteps(d);
    var a := After(d, Sweep);
    var b, c := After(a, Crash), After(After(a, Drop), Crash);
    RestartEndsExactly(d, found);
    hide After, Enabled;
    if Enabled(b, Recover(later)) { RestartEndsExactly(b, later); }
    if Enabled(c, Recover(later)) { RestartEndsExactly(c, later); }
  }

  lemma CleaningSteps(d: Desk)
    requires RollsBack(d)
    ensures var s, a := d.worker.value, After(d, Sweep);
      && Enabled(a, Drop) && Enabled(a, Crash) && Enabled(After(a, Drop), Crash)
      && After(a, Crash) == d.(spaces := d.spaces - {s})
      && After(After(a, Drop), Crash) == d.(spaces := d.spaces - {s}, worker := None)
      && d.spaces - {s} - {s} == d.spaces - {s} == d.spaces - {s} - {}
  {
  }
}
