/** The trust gate for peer-submitted issues, over whole lives of one issue: adoption with the labels
    its peer chose, driving, parking, approval and landing, with a crash possible between any two durable writes. */
module InboundGate {
  import opened Common
  import opened State

  const APPROVED: string := "inbound-approved:land"
  const PROPOSED: string := "followup:proposed"
  const GRAPHED: string := "phase:graphed"
  const STATUS_OPEN: string := "xb-status:open"
  const PHASE_PREFIX: string := "phase:"
  const STATUS_PREFIX: string := "xb-status:"

  /** What a peer must never set on the issue created for it. */
  predicate IsForbidden(tag: string) {
    || tag == APPROVED
    || tag == PROPOSED
    || (PHASE_PREFIX <= tag && tag != GRAPHED)
    || (STATUS_PREFIX <= tag && tag != STATUS_OPEN)
  }

  /** The two labels the server and the trusted chief set themselves are kept. */
  lemma TrustedLabelsStay()
    ensures !IsForbidden(GRAPHED) && !IsForbidden(STATUS_OPEN)
  {
    assert GRAPHED[0] != STATUS_PREFIX[0] && STATUS_OPEN[0] != PHASE_PREFIX[0];
    assert |GRAPHED| != |APPROVED| && |GRAPHED| != |PROPOSED| && |STATUS_OPEN| != |APPROVED| && |STATUS_OPEN| != |PROPOSED|;
  }

  function Forbidden(tags: seq<string>): seq<string> {
    if tags == [] then []
    else Forbidden(tags[..|tags| - 1]) + if IsForbidden(tags[|tags| - 1]) then [tags[|tags| - 1]] else []
  }

  /** The tracker's labels on one issue, as adoption sanitizes them. */
  class Labels {
    var labels: set<string>

    constructor (labels: set<string>)
      ensures this.labels == labels
    {
      this.labels := labels;
    }

    method SanitizeInbound(listed: seq<string>) returns (stripped: nat)
      modifies this
      ensures labels == old(labels) - set l | l in listed && IsForbidden(l)
      ensures stripped == |Forbidden(listed)|
      ensures forall l :: l in labels && l in listed ==>
        l != APPROVED && l != PROPOSED && (PHASE_PREFIX <= l ==> l == GRAPHED) && (STATUS_PREFIX <= l ==> l == STATUS_OPEN)
      ensures forall l :: l in {GRAPHED, STATUS_OPEN} && l in old(labels) ==> l in labels
    {
      TrustedLabelsStay();
      stripped := 0;
      for k := 0 to |listed|
        invariant labels == old(labels) - set l | l in listed[..k] && IsForbidden(l)
        invariant stripped == |Forbidden(listed[..k])|
      {
        assert listed[..k + 1] == listed[..k] + [listed[k]];
        assert listed[..k + 1][..k] == listed[..k];
        if !IsForbidden(listed[k]) { continue; }
        labels := labels - {listed[k]};
        stripped := stripped + 1;
      }
      assert listed[..|listed|] == listed;
    }
  }

  // --- one issue's life -----------------------------------------------------

  datatype Row = Row(phase: Phase, round: nat, stored: Option<nat>)

  /** A registered implementing workspace of this issue: the round in its name and its commit. */
  datatype Space = Space(round: nat, commit: nat)

  /** A change handed to landing: what was stored then, and whether a human had approved. */
  datatype Handoff = Handoff(change: nat, stored: Option<nat>, human: bool)

  /** Where the code stands; lost in a crash. */
  datatype Pc =
    | Idle
    | Recovering
    | Strip(todo: seq<string>)
    | Prepared(space: Space)
    | Working(space: Space)
    | Testing(space: Space)
    | Rejected(space: Space, verdict: Verdict)
    | Settling(verdict: Verdict)
    | Passed(space: Space)
    | Leaving(space: Space)
    | Review(change: nat)
    | Gate(change: nat)
    | Park(change: nat)
    | Land(change: nat)

  /** `human` holds while the approval label on the issue is one a human put there; `seen` once the
      gate has let the issue through on such a tag; `judged` are the changes review found good. */
  datatype Desk = Desk(inbound: bool, labels: set<string>, row: Option<Row>, worker: Option<Space>, spaces: set<Space>,
                       pc: Pc, human: bool, seen: bool, handed: seq<Handoff>, judged: set<nat>)

  datatype Verdict = Good | Bad | Broken

  datatype Event =
    | Label(tag: string, on: bool)
    | Mirror(tag: string, on: bool)
    | List(labels: seq<string>)
    | StripOne
    | Adopt
    | Prepare(commit: nat)
    | Register
    | Test
    | Stall
    | Qa(verdict: Verdict)
    | Discard
    | Settle
    | Enter
    | Forget
    | Judge(verdict: Verdict)
    | ReadGate
    | FinishPark
    | Resume
    | FinishLanding(phase: Phase)
    | Crash
    | Sweep
    | Drop
    | Recover(found: Option<Space>)

  predicate Matches(d: Desk, s: Space)
    requires d.row.Some?
  {
    s in d.spaces && s.round == d.row.value.round
  }

  /** A restart has a crashed worker to clean up after. */
  predicate RollsBack(d: Desk) {
    d.pc.Recovering? && d.worker.Some? && d.row.Some?
    && (d.row.value.phase.Implementing? || d.row.value.phase.QaGate? || d.row.value.phase.AdversaryReview?)
  }

  ghost predicate Enabled(d: Desk, e: Event) {
    match e
    case Label(_, _) => true
    case Mirror(tag, _) => tag != APPROVED
    case List(labels) => d.pc.Idle? && d.row.None? && forall l :: l in d.labels ==> l in labels
    case StripOne => d.pc.Strip? && d.pc.todo != []
    case Adopt => d.pc.Strip? && d.pc.todo == []
    case Prepare(_) => d.pc.Idle? && d.row.Some? && IsDrivable(d.row.value.phase)
    case Register => d.pc.Prepared? && d.row.Some?
    case Test => d.pc.Working? && d.row.Some?
    case Stall => d.pc.Working? && d.row.Some?
    case Qa(_) => d.pc.Testing? && d.row.Some?
    case Discard => d.pc.Rejected? && d.row.Some?
    case Settle => d.pc.Settling? && d.row.Some?
    case Enter => d.pc.Passed? && d.row.Some?
    case Forget => d.pc.Leaving? && d.row.Some?
    case Judge(_) => d.pc.Review? && d.row.Some?
    case ReadGate => d.pc.Gate? && d.row.Some?
    case FinishPark => d.pc.Park? && d.row.Some?
    case Resume => d.pc.Idle? && d.row.Some? && d.row.value.phase.AwaitingInboundApproval? && d.row.value.stored.Some? && APPROVED in d.labels
    case FinishLanding(phase) => d.pc.Land? && d.row.Some? && IsTerminal(phase) && !phase.AwaitingInboundApproval?
    case Crash => true
    case Sweep => RollsBack(d)
    case Drop => RollsBack(d) && d.worker.value !in d.spaces
    case Recover(found) =>
      d.pc.Recovering? && (d.row.Some? ==> match found
        case Some(s) => Matches(d, s)
        case None => forall s :: s in d.spaces ==> !Matches(d, s))
  }

  function At(d: Desk, phase: Phase, pc: Pc): Desk
    requires d.row.Some?
  {
    d.(row := Some(d.row.value.(phase := phase)), pc := pc)
  }

  function NextRound(d: Desk): Desk
    requires d.row.Some?
  {
    d.(row := Some(d.row.value.(phase := Implementing, round := d.row.value.round + 1)), pc := Idle)
  }

  function HandOver(d: Desk, change: nat, human: bool): Desk
    requires d.row.Some?
  {
    At(d, Landing, Land(change)).(handed := d.handed + [Handoff(change, d.row.value.stored, human)])
  }

  function Unworked(d: Desk, s: Space): Desk {
    d.(spaces := d.spaces - {s}, worker := None)
  }

  /** The restart: a registered worker's workspace is forgotten; a converged issue is landed from
      whatever implementing workspace of its round is still there, and a landing is resumed from the
      stored change or, failing that, the same way. No gate is consulted. */
  function Recovered(d: Desk, found: Option<Space>): Desk {
    if d.row.None? then d.(pc := Idle)
    else
      var r := d.row.value;
      var cleaned := match d.worker case None => d case Some(s) => Unworked(d, s);
      match r.phase
      case Implementing => At(cleaned, Implementing, Idle)
      case QaGate => At(cleaned, Implementing, Idle)
      case AdversaryReview => At(cleaned, Implementing, Idle)
      case Converged =>
        (match found case None => At(d, OrchestratorError, Idle) case Some(s) => HandOver(d, s.commit, d.seen))
      case Landing =>
        if r.stored.Some? then HandOver(d, r.stored.value, d.seen)
        else (match found case None => At(d, OrchestratorError, Idle) case Some(s) => HandOver(d, s.commit, d.seen))
      case _ => d.(pc := Idle)
  }

  function After(d: Desk, e: Event): Desk
    requires Enabled(d, e)
  {
    match e
    case Label(tag, on) =>
      d.(labels := if on then d.labels + {tag} else d.labels - {tag}, human := if tag == APPROVED then on else d.human)
    case Mirror(tag, on) => d.(labels := if on then d.labels + {tag} else d.labels - {tag})
    case List(labels) => d.(pc := Strip(if d.inbound then labels else []))
    case StripOne =>
      var tag := d.pc.todo[0];
      if IsForbidden(tag) then
        d.(labels := d.labels - {tag}, human := d.human && tag != APPROVED, pc := Strip(d.pc.todo[1..]))
      else d.(pc := Strip(d.pc.todo[1..]))
    case Adopt => d.(row := Some(Row(Graphed, 0, None)), pc := Idle)
    case Prepare(commit) =>
      var s := Space(d.row.value.round, commit);
      At(d, Implementing, Prepared(s)).(spaces := d.spaces + {s})
    case Register => d.(worker := Some(d.pc.space), pc := Working(d.pc.space))
    case Test => At(d, QaGate, Testing(d.pc.space))
    case Stall => d.(worker := None, pc := Rejected(d.pc.space, Broken))
    case Qa(verdict) => d.(worker := None, pc := if verdict.Good? then Passed(d.pc.space) else Rejected(d.pc.space, verdict))
    case Discard => d.(spaces := d.spaces - {d.pc.space}, pc := Settling(d.pc.verdict))
    case Settle => if d.pc.verdict.Bad? then NextRound(d) else At(d, OrchestratorError, Idle)
    case Enter => At(d, AdversaryReview, Leaving(d.pc.space))
    case Forget => d.(spaces := d.spaces - {d.pc.space}, pc := Review(d.pc.space.commit))
    case Judge(verdict) =>
      (match verdict
       case Good => At(d, Converged, Gate(d.pc.change)).(judged := d.judged + {d.pc.change})
       case Bad => NextRound(d)
       case Broken => At(d, OrchestratorError, Idle))
    case ReadGate =>
      if d.inbound && APPROVED !in d.labels then
        d.(row := Some(d.row.value.(stored := Some(d.pc.change))), pc := Park(d.pc.change))
      else HandOver(d, d.pc.change, d.human).(seen := d.seen || d.human)
    case FinishPark => At(d, AwaitingInboundApproval, Idle)
    case Resume => d.(pc := Gate(d.row.value.stored.value))
    case FinishLanding(phase) => At(d, phase, Idle)
    case Crash => d.(pc := Recovering)
    case Sweep => d.(spaces := d.spaces - {d.worker.value})
    case Drop => d.(worker := None)
    case Recover(found) => Recovered(d, found)
  }

  /** An issue as its peer created it, labels and all. */
  predicate Created(d: Desk) {
    d.row.None? && d.worker.None? && d.spaces == {} && d.pc.Idle? && !d.human && !d.seen && d.handed == [] && d.judged == {}
  }

  /** No forgotten implementing workspace of this round is left for recovery to mistake. */
  predicate NoOrphan(d: Desk, e: Event) {
    e.Recover? && d.row.Some? && (d.row.value.phase.Converged? || d.row.value.phase.Landing?) ==> e.found.None?
  }

  predicate Landed(p: Phase) {
    p.Landing? || p.Merged? || p.PrOpen?
  }

  predicate Honest(h: Handoff) {
    h.human && (h.stored.Some? ==> h.change == h.stored.value)
  }

  /** The change a position is about to hand over or park. */
  predicate Carries(pc: Pc, stored: Option<nat>) {
    match pc
    case Gate(c) => stored.Some? ==> c == stored.value
    case Park(c) => stored == Some(c)
    case Land(c) => stored.Some? ==> c == stored.value
    case _ => true
  }

  predicate Guarded(d: Desk) {
    && (forall h :: h in d.handed ==> Honest(h))
    && match d.row
       case None =>
         && (d.pc.Idle? || d.pc.Recovering? || d.pc.Strip?)
         && (d.pc.Strip? && APPROVED in d.labels ==> d.human || APPROVED in d.pc.todo)
       case Some(r) =>
         && !d.pc.Strip? && (APPROVED in d.labels ==> d.human)
         && (Landed(r.phase) || d.pc.Land? ==> d.seen && d.handed != [])
         && Carries(d.pc, r.stored)
         && (r.stored.Some? ==> (r.phase.Converged? && (d.pc.Park? || d.pc.Recovering?)) || r.phase.Landing? || IsTerminal(r.phase))
         && (d.pc.Review? || d.pc.Passed? || d.pc.Leaving? || d.pc.Prepared? || d.pc.Working? || d.pc.Testing? || d.pc.Rejected? || d.pc.Settling? ==> r.stored.None?)
         && (d.pc.Gate? || d.pc.Park? ==> r.phase.Converged? || r.phase.AwaitingInboundApproval?)
  }

  lemma LabelsAreGuarded(d: Desk, e: Event)
    requires d.inbound && Guarded(d) && Enabled(d, e) && (e.Label? || e.Mirror? || e.List? || e.StripOne? || e.Adopt?)
    ensures Guarded(After(d, e))
  {
    match e
    case StripOne => assert d.pc.todo == [d.pc.todo[0]] + d.pc.todo[1..];
    case Label(_, _) =>
    case Mirror(_, _) =>
    case List(_) =>
    case Adopt =>
  }

  lemma WorkIsGuarded(d: Desk, e: Event)
    requires d.inbound && Guarded(d) && Enabled(d, e)
    requires e.Prepare? || e.Register? || e.Test? || e.Stall? || e.Qa? || e.Discard? || e.Settle? || e.Enter? || e.Forget? || e.Judge?
    ensures Guarded(After(d, e))
  {
    match e
    case Test =>
    case Stall =>
    case Discard =>
    case Settle =>
    case Qa(verdict) =>
    case Judge(verdict) =>
    case Prepare(_) =>
    case Register =>
    case Enter =>
    case Forget =>
  }

  lemma LandingIsGuarded(d: Desk, e: Event)
    requires d.inbound && Guarded(d) && Enabled(d, e) && (e.ReadGate? || e.FinishPark? || e.Resume? || e.FinishLanding? || e.Crash? || e.Sweep? || e.Drop?)
    ensures Guarded(After(d, e))
  {
    match e
    case ReadGate =>
    case FinishPark =>
    case Resume =>
    case FinishLanding(_) =>
    case Crash =>
    case Sweep =>
    case Drop =>
  }

  lemma RecoveryIsGuarded(d: Desk, found: Option<Space>)
    requires d.inbound && Guarded(d) && Enabled(d, Recover(found)) && NoOrphan(d, Recover(found))
    ensures Guarded(Recovered(d, found))
  {
    if d.row.Some? {
      match d.row.value.phase
      case Implementing =>
      case QaGate =>
      case AdversaryReview =>
      case Converged =>
      case Landing =>
      case _ =>
    }
  }

  lemma StepIsGuarded(d: Desk, e: Event)
    requires d.inbound && Guarded(d) && Enabled(d, e) && NoOrphan(d, e)
    ensures Guarded(After(d, e)) && After(d, e).inbound
  {
    hide Guarded, NoOrphan;
    match e
    case Recover(found) => RecoveryIsGuarded(d, found);
    case ReadGate => LandingIsGuarded(d, e);
    case FinishPark => LandingIsGuarded(d, e);
    case Resume => LandingIsGuarded(d, e);
    case FinishLanding(_) => LandingIsGuarded(d, e);
    case Crash => LandingIsGuarded(d, e);
    case Sweep => LandingIsGuarded(d, e);
    case Drop => LandingIsGuarded(d, e);
    case Test => WorkIsGuarded(d, e);
    case Stall => WorkIsGuarded(d, e);
    case Discard => WorkIsGuarded(d, e);
    case Settle => WorkIsGuarded(d, e);
    case Prepare(_) => WorkIsGuarded(d, e);
    case Register => WorkIsGuarded(d, e);
    case Qa(_) => WorkIsGuarded(d, e);
    case Enter => WorkIsGuarded(d, e);
    case Forget => WorkIsGuarded(d, e);
    case Judge(_) => WorkIsGuarded(d, e);
    case _ => LabelsAreGuarded(d, e);
  }

  ghost predicate IsRun(ds: seq<Desk>, es: seq<Event>) {
    && |ds| == |es| + 1
    && forall k :: 0 <= k < |es| ==> Enabled(ds[k], es[k]) && ds[k + 1] == After(ds[k], es[k])
  }

  lemma {:induction false} GuardHolds(ds: seq<Desk>, es: seq<Event>, n: nat)
    requires IsRun(ds, es) && Created(ds[0]) && ds[0].inbound && n < |ds|
    requires forall k :: 0 <= k < |es| ==> NoOrphan(ds[k], es[k])
    ensures Guarded(ds[n]) && ds[n].inbound
    decreases n
  {
    if n > 0 {
      GuardHolds(ds, es, n - 1);
      StepIsGuarded(ds[n - 1], es[n - 1]);
      assert ds[n - 1 + 1] == After(ds[n - 1], es[n - 1]);
    }
  }

  /** The trust gate over whole lives: as long as no forgotten workspace is left for recovery to find,
      a peer's issue reaches landing, merge or pull request only after a human put the approval label
      on it, whatever labels it was created with and wherever the process crashed; and once it has
      parked, what is landed is the change that was stored. */
  lemma OnlyApprovedLands(ds: seq<Desk>, es: seq<Event>, n: nat)
    requires IsRun(ds, es) && Created(ds[0]) && ds[0].inbound && n < |ds|
    requires forall k :: 0 <= k < |es| ==> NoOrphan(ds[k], es[k])
    ensures forall h :: h in ds[n].handed ==> Honest(h)
    ensures ds[n].row.Some? && Landed(ds[n].row.value.phase) ==> ds[n].seen && ds[n].handed != []
  {
    GuardHolds(ds, es, n);
  }

  // --- review before land, for any issue ------------------------------------

  /** Every change handed to landing, and every change about to be, is one that review found good. */
  predicate Vetted(d: Desk) {
    && (forall h :: h in d.handed ==> h.change in d.judged)
    && (d.row.Some? && d.row.value.stored.Some? ==> d.row.value.stored.value in d.judged)
    && (d.pc.Gate? || d.pc.Park? || d.pc.Land? ==> d.pc.change in d.judged)
  }

  /** Recovery lands what it found in a workspace: the issue had converged, or was landing with nothing
      stored. */
  predicate LandsFound(d: Desk, e: Event) {
    e.Recover? && e.found.Some? && d.row.Some?
    && (d.row.value.phase.Converged? || (d.row.value.phase.Landing? && d.row.value.stored.None?))
  }

  /** Whoever submitted the issue, a step hands an unreviewed change to landing exactly when it is a
      restart that finds one in a workspace nobody forgot. */
  lemma StepIsVettedExactly(d: Desk, e: Event)
    requires Vetted(d) && Enabled(d, e)
    ensures Vetted(After(d, e)) <==> !(LandsFound(d, e) && e.found.value.commit !in d.judged)
  {
    if e.Recover? {
      RecoveryIsVettedExactly(d, e.found);
    } else {
      hide Enabled;
      if e.Judge? || e.ReadGate? || e.FinishPark? || e.Resume? || e.FinishLanding? { GateIsVetted(d, e); } else { WorkIsVetted(d, e); }
    }
  }

  lemma RecoveryIsVettedExactly(d: Desk, found: Option<Space>)
    requires Vetted(d) && Enabled(d, Recover(found))
    ensures Vetted(After(d, Recover(found))) <==> !(LandsFound(d, Recover(found)) && found.value.commit !in d.judged)
  {
    RecoveryHands(d, found);
    hide Recovered, Enabled;
    var v := After(d, Recover(found));
    var c := ChangeRecovered(d, found);
    if c.Some? {
      assert v.handed[|d.handed|].change == c.value && v.handed[|d.handed|] in v.handed;
      assert forall h :: h in v.handed ==> h in d.handed || h == v.handed[|d.handed|];
    }
  }

  /** What a restart hands to landing. */
  function ChangeRecovered(d: Desk, found: Option<Space>): Option<nat> {
    if d.row.None? || !(d.row.value.phase.Converged? || d.row.value.phase.Landing?) then None
    else if d.row.value.phase.Landing? && d.row.value.stored.Some? then d.row.value.stored
    else if found.Some? then Some(found.value.commit)
    else None
  }

  lemma RecoveryHands(d: Desk, found: Option<Space>)
    ensures var v, c := Recovered(d, found), ChangeRecovered(d, found);
      if c.Some? then v == HandOver(d, c.value, d.seen)
      else v.handed == d.handed && v.judged == d.judged && v.pc.Idle? && v.row.Some? == d.row.Some?
           && (d.row.Some? ==> v.row.value.stored == d.row.value.stored)
  {
  }

  lemma GateIsVetted(d: Desk, e: Event)
    requires Vetted(d) && Enabled(d, e) && (e.Judge? || e.ReadGate? || e.FinishPark? || e.Resume? || e.FinishLanding?)
    ensures Vetted(After(d, e))
  {
  }

  lemma WorkIsVetted(d: Desk, e: Event)
    requires Vetted(d) && Enabled(d, e)
    requires !e.Recover? && !e.Judge? && !e.ReadGate? && !e.FinishPark? && !e.Resume? && !e.FinishLanding?
    ensures Vetted(After(d, e))
  {
  }

  /** Review before land over whole lives of any issue, local or not, with crashes. */
  lemma {:induction false} OnlyReviewedLands(ds: seq<Desk>, es: seq<Event>, n: nat)
    requires IsRun(ds, es) && Created(ds[0]) && n < |ds|
    requires forall k :: 0 <= k < |es| ==> LandsFound(ds[k], es[k]) ==> es[k].found.value.commit in ds[k].judged
    ensures Vetted(ds[n])
    decreases n
  {
    if n > 0 {
      OnlyReviewedLands(ds, es, n - 1);
      StepIsVettedExactly(ds[n - 1], es[n - 1]);
      assert ds[n - 1 + 1] == After(ds[n - 1], es[n - 1]);
    }
  }

  // --- why the hypothesis is needed -----------------------------------------

  /** Exactly then: a restart hands an issue no human has approved to landing iff recovery finds a
      forgotten workspace of its round. */
  lemma RecoveryIsUngatedExactly(d: Desk, found: Option<Space>)
    requires d.inbound && Guarded(d) && !d.seen && Enabled(d, Recover(found))
    ensures (exists h :: h in After(d, Recover(found)).handed && !Honest(h)) <==> !NoOrphan(d, Recover(found))
  {
    var v := After(d, Recover(found));
    if NoOrphan(d, Recover(found)) {
      RecoveryIsGuarded(d, found);
    } else {
      assert !Honest(v.handed[|d.handed|]);
    }
  }

  /** The events can happen one after the other from `d`, and end in `last`. */
  ghost predicate Leads(d: Desk, es: seq<Event>, last: Desk)
    decreases |es|
  {
    if es == [] then d == last
    else Enabled(d, es[0]) && Leads(After(d, es[0]), es[1..], last)
  }

  lemma LeadsOn(d: Desk, e: Event, es: seq<Event>, last: Desk)
    requires Enabled(d, e) && Leads(After(d, e), es, last)
    ensures Leads(d, [e] + es, last)
  {
    assert ([e] + es)[1..] == es;
  }

  const UNTOUCHED := Desk(true, {}, None, None, {}, Idle, false, false, [], {})

  /** Being implemented, with a workspace of the same round that nobody remembers. */
  function Orphaned(orphan: nat): Desk {
    Desk(true, {}, Some(Row(Implementing, 0, None)), None, {Space(0, orphan)}, Idle, false, false, [], {})
  }

  /** The orphan's commit in the landing code, with no approval ever given and only the other change
      reviewed. */
  function Ungated(orphan: nat, change: nat): Desk {
    Desk(true, {}, Some(Row(Landing, 0, None)), None, {Space(0, orphan)}, Land(orphan), false, false,
         [Handoff(orphan, None, false)], {change})
  }

  /** QA has just passed a second attempt of the same round. */
  function SecondPassed(orphan: nat, change: nat): Desk {
    var s := Space(0, change);
    Desk(true, {}, Some(Row(QaGate, 0, None)), None, {Space(0, orphan), s}, Passed(s), false, false, [], {})
  }

  /** Review is looking at the second attempt, whose workspace is forgotten. */
  function SecondReviewed(orphan: nat, change: nat): Desk {
    Desk(true, {}, Some(Row(AdversaryReview, 0, None)), None, {Space(0, orphan)}, Review(change), false, false, [], {})
  }

  lemma ReviewLands(orphan: nat, change: nat) returns (es: seq<Event>)
    ensures Leads(SecondReviewed(orphan, change), es, Ungated(orphan, change))
  {
    var d5, last, found := SecondReviewed(orphan, change), Ungated(orphan, change), Some(Space(0, orphan));
    var d6 := After(d5, Judge(Good));
    var d7 := After(d6, Crash);
    assert Space(0, orphan) in d7.spaces;
    assert last == After(d7, Recover(found));
    hide After, Enabled;
    es := [];
    LeadsOn(d7, Recover(found), es, last);
    es := [Recover(found)] + es;
    LeadsOn(d6, Crash, es, last);
    es := [Event.Crash] + es;
    LeadsOn(d5, Judge(Good), es, last);
    es := [Judge(Good)] + es;
  }

  lemma SecondLands(orphan: nat, change: nat) returns (es: seq<Event>)
    requires orphan != change
    ensures Leads(SecondPassed(orphan, change), es, Ungated(orphan, change))
  {
    var d3, last := SecondPassed(orphan, change), Ungated(orphan, change);
    var d4 := After(d3, Enter);
    assert {Space(0, orphan), Space(0, change)} - {Space(0, change)} == {Space(0, orphan)};
    assert After(d4, Forget) == SecondReviewed(orphan, change);
    hide After, Enabled;
    es := ReviewLands(orphan, change);
    LeadsOn(d4, Forget, es, last);
    es := [Event.Forget] + es;
    LeadsOn(d3, Enter, es, last);
    es := [Event.Enter] + es;
  }

  /** Once an orphan is left, a crash between convergence and the gate lands it unapproved. */
  lemma OrphanLands(orphan: nat, change: nat) returns (es: seq<Event>)
    requires orphan != change
    ensures Leads(Orphaned(orphan), es, Ungated(orphan, change))
  {
    var d0, last := Orphaned(orphan), Ungated(orphan, change);
    var d1 := After(d0, Prepare(change));
    var d2 := After(d1, Register);
    var d3 := After(d2, Test);
    assert After(d3, Qa(Good)) == SecondPassed(orphan, change);
    hide After, Enabled;
    es := SecondLands(orphan, change);
    LeadsOn(d3, Qa(Good), es, last);
    es := [Qa(Good)] + es;
    LeadsOn(d2, Test, es, last);
    es := [Event.Test] + es;
    LeadsOn(d1, Register, es, last);
    es := [Event.Register] + es;
    LeadsOn(d0, Prepare(change), es, last);
    es := [Prepare(change)] + es;
  }

  /** A crash after the workspace is prepared and before its worker is registered leaves an orphan. */
  lemma UnregisteredCrashLands(orphan: nat, change: nat) returns (es: seq<Event>)
    requires orphan != change
    ensures Created(UNTOUCHED) && UNTOUCHED.inbound && Leads(UNTOUCHED, es, Ungated(orphan, change))
    ensures !Honest(Ungated(orphan, change).handed[0]) && orphan !in Ungated(orphan, change).judged
  {
    var d2 := Adopted();
    var d3 := After(d2, Prepare(orphan));
    var d4 := After(d3, Crash);
    var found := Some(Space(0, orphan));
    assert After(d4, Recover(found)) == Orphaned(orphan);
    es := OrphanLands(orphan, change);
    hide After, Enabled;
    LeadsOn(d4, Recover(found), es, Ungated(orphan, change));
    es := [Recover(found)] + es;
    LeadsOn(d3, Crash, es, Ungated(orphan, change));
    es := [Event.Crash] + es;
    LeadsOn(d2, Prepare(orphan), es, Ungated(orphan, change));
    es := FromCreation([Prepare(orphan)] + es, Ungated(orphan, change));
  }

  lemma FromCreation(later: seq<Event>, last: Desk) returns (es: seq<Event>)
    requires Leads(Adopted(), later, last)
    ensures Leads(UNTOUCHED, es, last) && es == [List([]), Adopt] + later
  {
    var d1 := After(UNTOUCHED, List([]));
    assert After(d1, Adopt) == Adopted();
    hide After, Enabled;
    LeadsOn(d1, Adopt, later, last);
    LeadsOn(UNTOUCHED, List([]), [Event.Adopt] + later, last);
    es := [List([])] + ([Event.Adopt] + later);
  }

  function Adopted(): Desk {
    Desk(true, {}, Some(Row(Graphed, 0, None)), None, {}, Idle, false, false, [], {})
  }

  lemma AdoptedIsTested(orphan: nat, change: nat, verdict: Verdict) returns (es: seq<Event>)
    requires orphan != change
    ensures Leads(Adopted(), es, Ungated(orphan, change)) && Qa(verdict) in es
  {
    var d2 := Adopted();
    var d3 := After(d2, Prepare(orphan));
    var d4 := After(d3, Register);
    assert After(d4, Test) == Tested(orphan);
    hide After, Enabled;
    es := TestedPasses(orphan, change, verdict);
    LeadsOn(d4, Test, es, Ungated(orphan, change));
    es := [Event.Test] + es;
    LeadsOn(d3, Register, es, Ungated(orphan, change));
    es := [Event.Register] + es;
    LeadsOn(d2, Prepare(orphan), es, Ungated(orphan, change));
    es := [Prepare(orphan)] + es;
  }

  /** QA is running on a first attempt. */
  function Tested(commit: nat): Desk {
    var s := Space(0, commit);
    Desk(true, {}, Some(Row(QaGate, 0, None)), Some(s), {s}, Testing(s), false, false, [], {})
  }

  lemma TestedPasses(orphan: nat, change: nat, verdict: Verdict) returns (es: seq<Event>)
    requires orphan != change
    ensures Leads(Tested(orphan), es, Ungated(orphan, change)) && Qa(verdict) in es
  {
    var d5 := Tested(orphan);
    var d6 := After(d5, Qa(verdict));
    var d7 := After(d6, Crash);
    var found := Some(Space(0, orphan));
    assert After(d7, Recover(found)) == Orphaned(orphan);
    es := OrphanLands(orphan, change);
    hide After, Enabled;
    LeadsOn(d7, Recover(found), es, Ungated(orphan, change));
    es := [Recover(found)] + es;
    LeadsOn(d6, Crash, es, Ungated(orphan, change));
    es := [Event.Crash] + es;
    LeadsOn(d5, Qa(verdict), es, Ungated(orphan, change));
    es := [Qa(verdict)] + es;
  }

  /** So does a crash after QA has answered, whatever it answered, when the worker row is gone and the
      workspace is not: the work that failed QA can be what lands. */
  lemma TestedCrashLands(orphan: nat, change: nat, verdict: Verdict) returns (es: seq<Event>)
    requires orphan != change
    ensures Leads(UNTOUCHED, es, Ungated(orphan, change)) && Qa(verdict) in es
  {
    es := AdoptedIsTested(orphan, change, verdict);
    es := FromCreation(es, Ungated(orphan, change));
  }
}
