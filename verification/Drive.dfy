/** What one issue goes through when it is driven or resumed: from its row and what comes back from
    workers, QA, landing and the tracker, what may happen next and where it leaves the row. */
module Drive {
  import opened Common
  import opened State
  import opened Artifacts
  import opened History

  const MAX_QA_RETRIES: nat := 3
  const MAX_ADVERSARY_ROUNDS: nat := 6
  const MAX_MERGER_SPAWNS: nat := 1
  const REVIEW := Place(AdversaryReview, Null)
  const PARKED := Place(AwaitingInboundApproval, Null)

  /** The columns of an issue row the pump reads and writes, and whether the issue came from a peer. */
  datatype Row = Row(place: Place, round: nat, streak: nat, retries: nat, inbound: bool, stored: Option<nat>)

  /** Where the code stands between two events, with the change it holds in memory. */
  datatype Stage =
    | Ready
    | Building
    | Testing(change: nat)
    | Reviewing(change: nat)
    | Attacked(change: nat)
    | Agreed(change: nat)
    | AtGate(change: nat)
    | Cleared(change: nat)
    | Conflicted
    | ToMerge
    | AtMerger
    | Rechecking(commit: nat)
    | Retrying(commit: nat)
    | Waiting
    | Approved(change: nat)
    | Ended

  datatype At = At(row: Row, stage: Stage)

  function End(r: Row, p: Place): At {
    At(r.(place := p), Ended)
  }

  /** Back to implementing with the next round and no streak, unless the budget is spent. */
  function Redo(r: Row, cap: nat, stage: Stage): At {
    if r.round + 1 >= cap then End(r, ERROR)
    else At(r.(round := r.round + 1, streak := 0, place := IMPLEMENTING), stage)
  }

  function AfterQa(r: Row, change: nat, qa: Qa): At {
    match qa
    case QaPass => At(r.(place := REVIEW), Reviewing(change))
    case QaFail => Redo(r, MAX_QA_RETRIES, Ended)
    case QaBroken => End(r, ERROR)
  }

  function AfterRound(r: Row, change: nat, verdict: RoundVerdict, n: nat): At {
    match verdict
    case RoundPoisoned => End(r, ERROR)
    case RoundFindings => Redo(r, MAX_ADVERSARY_ROUNDS, Ready)
    case RoundClean =>
      if r.streak + 1 >= n then At(r.(streak := r.streak + 1, place := CONVERGED), Agreed(change))
      else At(r.(streak := r.streak + 1), Reviewing(change))
  }

  function AfterGate(r: Row, change: nat, approved: bool): At {
    if r.inbound && !approved then End(r.(stored := Some(change)), PARKED) else At(r, Cleared(change))
  }

  function AfterLanding(r: Row, landed: Landed): At {
    match landed
    case LandMerged => End(r, MERGED)
    case LandPrOpen => End(r, PR_OPEN)
    case LandParked => End(r, AWAITING_HUMAN)
    case LandNoToken => End(r, ERROR)
    case LandConflict =>
      if r.retries >= MAX_MERGER_SPAWNS then End(r, AWAITING_HUMAN) else At(r.(place := LandingAt(Substate.Merging)), Conflicted)
  }

  /** The one continuation of each event, or none if the event cannot happen here. */
  function Next(at: At, e: Event, k: nat, n: nat, reader: Reader): Option<At> {
    var r := at.row;
    if e.issue != k then None
    else
      match (at.stage, e)
      case (Ready, Spawned(_, Implementer)) => Some(At(r.(streak := 0), Building))
      case (Building, Worked(_, work)) =>
        Some(if work.WorkCommits? then At(r.(place := Place(QaGate, Null)), Testing(work.change)) else End(r, ERROR))
      case (Testing(c), Checked(_, change, qa)) => if change == c then Some(AfterQa(r, c, qa)) else None
      case (Reviewing(c), Spawned(_, Adversary)) => Some(At(r, Attacked(c)))
      case (Attacked(c), Judged(_, change, attack)) =>
        if change == c then Some(AfterRound(r, c, VerdictOf(reader, attack), n)) else None
      case (Agreed(c), Handed(_, change, reviewed)) => if change == c && reviewed then Some(At(r, AtGate(c))) else None
      case (AtGate(c), Looked(_, approved)) => Some(AfterGate(r, c, approved))
      case (Cleared(c), Tried(_, change, landed)) => if change == c then Some(AfterLanding(r, landed)) else None
      case (Conflicted, Charged(_)) => Some(At(r.(retries := r.retries + 1), ToMerge))
      case (ToMerge, Spawned(_, Merger)) => Some(At(r, AtMerger))
      case (AtMerger, Resolved(_, resolution)) =>
        Some(if resolution.MergerResolves? then At(r, Rechecking(resolution.commit)) else End(r, AWAITING_HUMAN))
      case (Rechecking(c), Checked(_, commit, qa)) =>
        if commit != c then None else Some(if qa.QaPass? then At(r, Retrying(c)) else End(r, AWAITING_HUMAN))
      case (Retrying(c), Retried(_, commit, moved)) =>
        if commit == c then Some(End(r, if moved then MERGED else AWAITING_HUMAN)) else None
      case (Waiting, Looked(_, approved)) =>
        Some(if approved && r.stored.Some? then At(r, Approved(r.stored.value)) else At(r, Ended))
      case (Approved(c), Handed(_, change, reviewed)) => if change == c && !reviewed then Some(At(r, AtGate(c))) else None
      case _ => None
  }

  function Play(at: At, h: seq<Event>, k: nat, n: nat, reader: Reader): Option<At> {
    if h == [] then Some(at)
    else
      match Play(at, h[..|h| - 1], k, n, reader)
      case None => None
      case Some(mid) => Next(mid, h[|h| - 1], k, n, reader)
  }

  lemma PlayOn(at: At, h: seq<Event>, e: Event, k: nat, n: nat, reader: Reader)
    ensures Play(at, h + [e], k, n, reader) ==
      match Play(at, h, k, n, reader) case None => None case Some(mid) => Next(mid, e, k, n, reader)
  {
    assert (h + [e])[..|h + [e]| - 1] == h;
  }

  lemma {:induction false} PlayConcat(at: At, a: seq<Event>, b: seq<Event>, k: nat, n: nat, reader: Reader)
    ensures Play(at, a + b, k, n, reader) ==
      match Play(at, a, k, n, reader) case None => None case Some(mid) => Play(mid, b, k, n, reader)
    decreases |b|
  {
    if b == [] {
      assert a + b == a;
    } else {
      assert (a + b)[..|a + b| - 1] == a + b[..|b| - 1];
      PlayConcat(at, a, b[..|b| - 1], k, n, reader);
    }
  }

  /** Whatever has happened to an issue, every part of it up to then could happen. */
  lemma {:induction false} PlayedPrefix(at: At, h: seq<Event>, cut: nat, k: nat, n: nat, reader: Reader)
    requires cut <= |h| && Play(at, h, k, n, reader).Some?
    ensures Play(at, h[..cut], k, n, reader).Some?
    decreases |h|
  {
    if cut < |h| {
      assert h[..|h| - 1][..cut] == h[..cut];
      PlayedPrefix(at, h[..|h| - 1], cut, k, n, reader);
    } else {
      assert h[..cut] == h;
    }
  }

  /** The two ways the pump takes up an issue: driving it, and looking at it while it is parked. */
  predicate Opens(at: At) {
    at.stage.Ready? || at.stage.Waiting?
  }

  // --- what has come before ---------------------------------------------------

  /** The memory and the streak are accounted for by the events just before. The streak counts exactly
      the clean rounds on the change at hand, since QA passed on it. */
  predicate Grounded(h: seq<Event>, at: At, k: nat, n: nat, reader: Reader) {
    var r := at.row;
    match at.stage
    case Building => r.streak == 0
    case Testing(_) => r.streak == 0
    case Reviewing(c) => r.streak < n && ReviewedFor(h, r.streak, k, c, reader)
    case Attacked(c) =>
      |h| > 0 && h[|h| - 1] == Spawned(k, Adversary) && r.streak < n && ReviewedFor(h[..|h| - 1], r.streak, k, c, reader)
    case Agreed(c) => r.streak == n && ReviewedFor(h, n, k, c, reader)
    case AtGate(c) => |h| > 0 && h[|h| - 1].Handed? && h[|h| - 1].issue == k && h[|h| - 1].change == c
    case Cleared(c) =>
      |h| > 1 && h[|h| - 2].Handed? && h[|h| - 2].issue == k && h[|h| - 2].change == c
      && h[|h| - 1].Looked? && h[|h| - 1].issue == k && (r.inbound ==> h[|h| - 1].approved)
    case ToMerge => |h| > 0 && h[|h| - 1] == Charged(k)
    case Retrying(c) => |h| > 0 && h[|h| - 1] == Checked(k, c, QaPass)
    case Approved(c) => |h| > 0 && h[|h| - 1] == Looked(k, true) && r.stored == Some(c)
    case _ => true
  }

  predicate ReviewedFor(h: seq<Event>, clean: nat, k: nat, change: nat, reader: Reader) {
    2 * clean < |h| && h[|h| - 2 * clean - 1] == Checked(k, change, QaPass)
    && CleanRounds(h, |h| - 2 * clean, clean, reader, k, change)
  }

  lemma OneMoreRound(h: seq<Event>, clean: nat, k: nat, change: nat, attack: Attack, reader: Reader)
    requires ReviewedFor(h, clean, k, change, reader) && VerdictOf(reader, attack).RoundClean?
    ensures ReviewedFor(h + [Spawned(k, Adversary), Judged(k, change, attack)], clean + 1, k, change, reader)
  {
    var g, from := h + [Spawned(k, Adversary), Judged(k, change, attack)], |h| - 2 * clean;
    CleanRoundsGrow(h, from, clean, reader, k, change, attack);
    hide CleanRounds, VerdictOf;
    assert g[from - 1] == h[from - 1] && from == |g| - 2 * (clean + 1);
  }

  lemma GroundedNext(h: seq<Event>, at: At, e: Event, k: nat, n: nat, reader: Reader)
    requires n >= 1 && Grounded(h, at, k, n, reader) && Next(at, e, k, n, reader).Some?
    ensures Grounded(h + [e], Next(at, e, k, n, reader).value, k, n, reader)
    ensures Next(at, e, k, n, reader).value.row.inbound == at.row.inbound
  {
    hide VerdictOf, ReviewedFor;
    var g := h + [e];
    assert g[..|g| - 1] == h && g[|g| - 1] == e && (|h| > 0 ==> g[|g| - 2] == h[|h| - 1]);
    if at.stage.Testing? && e.qa.QaPass? { NoRoundsYet(g, k, e.change, reader); }
    if at.stage.Attacked? && VerdictOf(reader, e.attack).RoundClean? {
      OneMoreRound(h[..|h| - 1], at.row.streak, k, e.change, e.attack, reader);
      assert g == h[..|h| - 1] + [Spawned(k, Adversary), e];
    }
  }

  lemma NoRoundsYet(h: seq<Event>, k: nat, change: nat, reader: Reader)
    requires |h| > 0 && h[|h| - 1] == Checked(k, change, QaPass)
    ensures ReviewedFor(h, 0, k, change, reader)
  {
  }

  lemma JustifiedNext(h: seq<Event>, at: At, e: Event, k: nat, n: nat, reader: Reader)
    requires n >= 1 && Grounded(h, at, k, n, reader) && Next(at, e, k, n, reader).Some?
    ensures Justified(h + [e], |h|, n, reader)
    ensures e.Tried? ==> |h| > 0 && h[|h| - 1].Looked? && (at.row.inbound ==> h[|h| - 1].approved)
  {
    hide VerdictOf;
    var g := h + [e];
    if e.Handed? && e.reviewed { CleanRoundsWithin(h, [e], |h| - 2 * n, n, reader, k, e.change); }
  }

  /** No landing is tried on an issue from a peer unless the reading just before it found the
      approval. */
  predicate Gated(h: seq<Event>, inbound: bool) {
    forall t :: 0 <= t < |h| && h[t].Tried? ==> t > 0 && h[t - 1].Looked? && (inbound ==> h[t - 1].approved)
  }

  /** Driving or resuming an issue, as far as it gets: every consequential event is justified, and the
      streak counts what it says. From review a change reaches landing only after QA and `n` clean
      rounds on that very change; a peer's reaches a landing only past the gate. */
  lemma {:induction false} PlayIsProper(start: At, h: seq<Event>, k: nat, n: nat, reader: Reader)
    requires n >= 1 && Opens(start) && Play(start, h, k, n, reader).Some?
    ensures Grounded(h, Play(start, h, k, n, reader).value, k, n, reader)
    ensures Proper(h, n, reader) && Gated(h, start.row.inbound)
    ensures Play(start, h, k, n, reader).value.row.inbound == start.row.inbound
    decreases |h|
  {
    hide Grounded, Justified, Next;
    if h != [] {
      var front, e := h[..|h| - 1], h[|h| - 1];
      PlayIsProper(start, front, k, n, reader);
      var mid := Play(start, front, k, n, reader).value;
      assert h == front + [e];
      GroundedNext(front, mid, e, k, n, reader);
      JustifiedNext(front, mid, e, k, n, reader);
      forall t | 0 <= t < |h| ensures Justified(h, t, n, reader) {
        if t < |front| { JustifiedInPrefix(front, [e], t, n, reader); }
      }
    } else {
      NothingBefore(start, k, n, reader);
    }
  }

  lemma NothingBefore(start: At, k: nat, n: nat, reader: Reader)
    requires Opens(start)
    ensures Grounded([], start, k, n, reader)
  {
  }

  // --- what it costs --------------------------------------------------------

  /** What driving costs, against what the row says: implementers by rounds, adversaries by
      implementers, Mergers by the retry column. */
  predicate Books(was: Row, at: At, implementers: nat, adversaries: nat, mergers: nat, charges: nat, n: nat) {
    var r := at.row;
    && was.round <= r.round && (r.round > was.round ==> r.round < MAX_ADVERSARY_ROUNDS)
    && implementers == r.round - was.round + (if at.stage.Ready? || (at.stage.Ended? && r.place == IMPLEMENTING) then 0 else 1)
    && (at.stage.Ended? && r.place == IMPLEMENTING ==> was.round < r.round < MAX_QA_RETRIES)
    && adversaries <= n * implementers - (
         match at.stage
         case Building => n case Testing(_) => n
         case Reviewing(_) => n - r.streak case Attacked(_) => n - r.streak - 1
         case _ => 0)
    && MergerBooks(was, at, mergers, charges)
  }

  predicate MergerBooks(was: Row, at: At, mergers: nat, charges: nat) {
    && at.row.retries == was.retries + charges && (charges > 0 ==> at.row.retries <= MAX_MERGER_SPAWNS)
    && (at.stage.Conflicted? ==> at.row.retries < MAX_MERGER_SPAWNS)
    && charges == mergers + (if at.stage.ToMerge? then 1 else 0)
  }

  /** Where each stage leaves the issue, which is where a crash would find it. */
  predicate Placed(at: At) {
    var p := at.row.place;
    match at.stage
    case Ready => p == IMPLEMENTING
    case Building => p == IMPLEMENTING
    case Testing(_) => p == Place(QaGate, Null)
    case Reviewing(_) => p == REVIEW
    case Attacked(_) => p == REVIEW
    case Agreed(_) => p == CONVERGED
    case AtGate(_) => p == CONVERGED || p.phase.AwaitingInboundApproval?
    case Cleared(_) => p == CONVERGED || p.phase.AwaitingInboundApproval?
    case Waiting => p.phase.AwaitingInboundApproval?
    case Approved(_) => p.phase.AwaitingInboundApproval?
    case Ended => p == IMPLEMENTING || IsTerminal(p.phase)
    case _ => p == LandingAt(Merging)
  }

  /** Not on the way from a park. */
  predicate Driving(at: At) {
    !at.stage.Waiting? && !at.stage.Approved?
  }

  function One(b: bool): nat { if b then 1 else 0 }

  lemma MergerBooksNext(was: Row, at: At, e: Event, k: nat, n: nat, reader: Reader, mergers: nat, charges: nat)
    requires MergerBooks(was, at, mergers, charges) && Next(at, e, k, n, reader).Some?
    ensures MergerBooks(was, Next(at, e, k, n, reader).value, mergers + One(e == Spawned(k, Merger)), charges + One(e == Charged(k)))
  {
    hide VerdictOf;
  }

  lemma BooksNext(was: Row, at: At, e: Event, k: nat, n: nat, reader: Reader,
                  implementers: nat, adversaries: nat, mergers: nat, charges: nat)
    requires Books(was, at, implementers, adversaries, mergers, charges, n) && Placed(at) && Next(at, e, k, n, reader).Some?
    requires Driving(at)
    requires at.stage.Reviewing? || at.stage.Attacked? ==> at.row.streak < n
    requires at.stage.Building? || at.stage.Testing? ==> at.row.streak == 0
    ensures Books(was, Next(at, e, k, n, reader).value, implementers + One(e == Spawned(k, Implementer)),
                  adversaries + One(e == Spawned(k, Adversary)), mergers + One(e == Spawned(k, Merger)), charges + One(e == Charged(k)), n)
    ensures Driving(Next(at, e, k, n, reader).value)
  {
    MergerBooksNext(was, at, e, k, n, reader, mergers, charges);
    hide VerdictOf, MergerBooks;
    assert n * (implementers + 1) == n * implementers + n;
  }

  lemma PlacedNext(at: At, e: Event, k: nat, n: nat, reader: Reader)
    requires Placed(at) && Next(at, e, k, n, reader).Some?
    ensures Placed(Next(at, e, k, n, reader).value)
  {
    hide VerdictOf;
  }

  lemma CountsOfLast(h: seq<Event>, k: nat)
    requires h != []
    ensures Charges(h, k) == Charges(h[..|h| - 1], k) + One(h[|h| - 1] == Charged(k))
    ensures forall role :: Spawns(h, k, role) == Spawns(h[..|h| - 1], k, role) + One(h[|h| - 1] == Spawned(k, role))
  {
  }

  lemma GroundedStreak(h: seq<Event>, at: At, k: nat, n: nat, reader: Reader)
    requires Grounded(h, at, k, n, reader)
    ensures at.stage.Reviewing? || at.stage.Attacked? ==> at.row.streak < n
    ensures at.stage.Building? || at.stage.Testing? ==> at.row.streak == 0
  {
    hide ReviewedFor;
  }

  /** Driving an issue, as far as it gets, costs what its row says. */
  lemma {:induction false} PlayKeepsBooks(start: At, h: seq<Event>, k: nat, n: nat, reader: Reader)
    requires n >= 1 && start.stage.Ready? && start.row.place == IMPLEMENTING && Play(start, h, k, n, reader).Some?
    ensures var at := Play(start, h, k, n, reader).value;
      && Books(start.row, at, Spawns(h, k, Implementer), Spawns(h, k, Adversary), Spawns(h, k, Merger), Charges(h, k), n)
      && Placed(at) && Driving(at)
    decreases |h|
  {
    FirstBooks(start, k, n, reader);
    hide Play, Books, Next, Grounded, Placed, Driving, Spawns, Charges, Proper, Gated;
    if h != [] {
      var front, e := h[..|h| - 1], h[|h| - 1];
      PlayOn(start, front, e, k, n, reader);
      assert h == front + [e];
      PlayKeepsBooks(start, front, k, n, reader);
      PlayIsProper(start, front, k, n, reader);
      var mid := Play(start, front, k, n, reader).value;
      CountsOfLast(h, k);
      GroundedStreak(front, mid, k, n, reader);
      BooksNext(start.row, mid, e, k, n, reader,
                Spawns(front, k, Implementer), Spawns(front, k, Adversary), Spawns(front, k, Merger), Charges(front, k));
      PlacedNext(mid, e, k, n, reader);
    }
  }

  lemma FirstBooks(start: At, k: nat, n: nat, reader: Reader)
    requires start.stage.Ready? && start.row.place == IMPLEMENTING
    ensures Play(start, [], k, n, reader) == Some(start)
    ensures Books(start.row, start, Spawns([], k, Implementer), Spawns([], k, Adversary), Spawns([], k, Merger), Charges([], k), n)
    ensures Placed(start) && Driving(start)
  {
  }

  /** What is left of a landing once an issue has been parked. */
  predicate Resuming(at: At) {
    match at.stage
    case Ended => IsTerminal(at.row.place.phase)
    case Ready => false
    case Building => false
    case Testing(_) => false
    case Reviewing(_) => false
    case Attacked(_) => false
    case Agreed(_) => false
    case _ => true
  }

  lemma ResumingNext(at: At, e: Event, k: nat, n: nat, reader: Reader)
    requires Resuming(at) && Placed(at) && Next(at, e, k, n, reader).Some?
    ensures Resuming(Next(at, e, k, n, reader).value) && Next(at, e, k, n, reader).value.row.round == at.row.round
    ensures e != Spawned(k, Implementer) && e != Spawned(k, Adversary)
  {
  }

  /** Resuming a parked issue spawns no implementer and no adversary, and at most its one Merger. */
  lemma {:induction false} ResumeKeepsBooks(start: At, h: seq<Event>, k: nat, n: nat, reader: Reader)
    requires start.stage.Waiting? && start.row.place.phase.AwaitingInboundApproval? && Play(start, h, k, n, reader).Some?
    ensures var at := Play(start, h, k, n, reader).value;
      && MergerBooks(start.row, at, Spawns(h, k, Merger), Charges(h, k)) && Resuming(at) && Placed(at)
      && Spawns(h, k, Implementer) == 0 && Spawns(h, k, Adversary) == 0 && at.row.round == start.row.round
    decreases |h|
  {
    if h != [] {
      var front, e := h[..|h| - 1], h[|h| - 1];
      ResumeKeepsBooks(start, front, k, n, reader);
      var mid := Play(start, front, k, n, reader).value;
      CountsOfLast(h, k);
      hide MergerBooks, Next, Resuming, Placed, Spawns, Charges;
      MergerBooksNext(start.row, mid, e, k, n, reader, Spawns(front, k, Merger), Charges(front, k));
      PlacedNext(mid, e, k, n, reader);
      ResumingNext(mid, e, k, n, reader);
    }
  }

  lemma {:induction false} PlayIsOwn(start: At, h: seq<Event>, k: nat, n: nat, reader: Reader, j: nat)
    requires Play(start, h, k, n, reader).Some? && j != k
    ensures Charges(h, j) == 0 && forall role :: Spawns(h, j, role) == 0
    decreases |h|
  {
    hide Next;
    if h != [] {
      PlayIsOwn(start, h[..|h| - 1], k, n, reader, j);
      OwnEvent(Play(start, h[..|h| - 1], k, n, reader).value, h[|h| - 1], k, n, reader);
    }
  }

  lemma OwnEvent(at: At, e: Event, k: nat, n: nat, reader: Reader)
    requires Next(at, e, k, n, reader).Some?
    ensures e.issue == k
  {
  }

  // --- across crashes -------------------------------------------------------

  /** One issue taken up once, by some process, and what happened until it was done or the process
      died. */
  datatype Stretch = Stretch(issue: nat, start: At, events: seq<Event>)

  function EventsOf(ss: seq<Stretch>): seq<Event> {
    if ss == [] then [] else ss[0].events + EventsOf(ss[1..])
  }

  /** Any stretches in a row, whatever a restart made of the rows in between, except that the durable
      retry column of issue `k` is only ever written by its charges. */
  predicate Follows(ss: seq<Stretch>, k: nat, column: nat, n: nat, reader: Reader)
    decreases |ss|
  {
    ss == [] ||
    (&& Takes(ss[0], n, reader)
     && (ss[0].issue == k ==> ss[0].start.row.retries == column)
     && Follows(ss[1..], k, column + Charges(ss[0].events, k), n, reader))
  }

  predicate Takes(s: Stretch, n: nat, reader: Reader) {
    && Play(s.start, s.events, s.issue, n, reader).Some?
    && ((s.start.stage.Ready? && s.start.row.place == IMPLEMENTING) || (s.start.stage.Waiting? && s.start.row.place.phase.AwaitingInboundApproval?))
  }

  /** A crash cuts a stretch anywhere. */
  lemma CrashLeavesStretch(s: Stretch, cut: nat, n: nat, reader: Reader)
    requires Takes(s, n, reader) && cut <= |s.events|
    ensures Takes(s.(events := s.events[..cut]), n, reader)
  {
    hide Play;
    PlayedPrefix(s.start, s.events, cut, s.issue, n, reader);
  }

  lemma StretchWithinBudget(s: Stretch, k: nat, n: nat, reader: Reader)
    requires n >= 1 && Takes(s, n, reader)
    ensures Proper(s.events, n, reader)
    ensures if s.issue == k
      then s.start.row.retries + Charges(s.events, k) <= MAX_MERGER_SPAWNS || Charges(s.events, k) == 0
      else Charges(s.events, k) == 0
  {
    PlayIsProper(s.start, s.events, s.issue, n, reader);
    if s.issue != k {
      PlayIsOwn(s.start, s.events, s.issue, n, reader, k);
    } else if s.start.stage.Ready? {
      PlayKeepsBooks(s.start, s.events, k, n, reader);
    } else {
      ResumeKeepsBooks(s.start, s.events, k, n, reader);
    }
  }

  /** Across any number of crashes, in processes that find any rows: every landing from review was
      earned in one stretch, every other was approved, and no issue ever gets more Mergers than the
      cap, because the charge is durable before the spawn. */
  lemma {:induction false} CrashesKeepOrder(ss: seq<Stretch>, k: nat, column: nat, n: nat, reader: Reader)
    requires n >= 1 && column <= MAX_MERGER_SPAWNS && Follows(ss, k, column, n, reader)
    ensures var h := EventsOf(ss);
      Proper(h, n, reader) && column + Charges(h, k) <= MAX_MERGER_SPAWNS && column + Spawns(h, k, Merger) <= MAX_MERGER_SPAWNS
    decreases |ss|
  {
    hide Proper, Takes, Spawns, Charges;
    if ss != [] {
      StretchWithinBudget(ss[0], k, n, reader);
      CrashesKeepOrder(ss[1..], k, column + Charges(ss[0].events, k), n, reader);
      ConcatKeepsProper(ss[0].events, EventsOf(ss[1..]), n, reader);
      CountsOfConcat(ss[0].events, EventsOf(ss[1..]), k);
    } else {
      NothingHappened(k, n, reader);
    }
    MergersWithinCharges(EventsOf(ss), k, n, reader);
  }

  lemma NothingHappened(k: nat, n: nat, reader: Reader)
    ensures Proper([], n, reader) && Charges([], k) == 0
  {
  }
}
