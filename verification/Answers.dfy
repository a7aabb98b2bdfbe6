/** Answering the peers whose issues reached the end of the line: arming, the capped and rate-limited
    delivery sweep, and the re-arm when an approved issue lands before its peer was reached. */
module Answers {
  import opened Common
  import opened State

  const MAX_ANSWER_ATTEMPTS := 12
  const MAX_ANSWER_DELIVERIES_PER_TICK: nat := 2
  const I64_MAX := 0x7FFF_FFFF_FFFF_FFFF
  const I64_MIN := -0x8000_0000_0000_0000

  function Clamp(x: int): int {
    if x > I64_MAX then I64_MAX else if x < I64_MIN then I64_MIN else x
  }

  /** Integer division as the machine does it, toward zero. */
  function Quarter(x: int): int {
    if x >= 0 then x / 4 else -(-x / 4)
  }

  function Abs(x: int): nat {
    if x >= 0 then x else -x
  }

  function Jitter(id: int, interval: int): (j: int)
    ensures 0 <= j
    ensures j == 0 || j < Quarter(interval)
  {
    var span := Quarter(interval);
    if span <= 0 then 0 else Abs(id) % span
  }

  /** How long a degraded answer waits after its last attempt. */
  function DueAfter(id: int, interval: int): int {
    Clamp(interval + Jitter(id, interval))
  }

  /** The columns of an issue row the answer machine reads and writes; `id` is `None` for a key that
      is not a number, `inbound` is the tracker's label. */
  datatype Row = Row(id: Option<int>, inbound: bool, phase: Phase, column: Column, attempts: int, updated: int)

  predicate IsPending(r: Row) {
    r.column == Token(AnswerPending)
  }

  predicate IsUnreachable(r: Row) {
    r.column == Token(AnswerUnreachable)
  }

  predicate Owed(r: Row) {
    IsPending(r) || IsUnreachable(r)
  }

  /** Whether a sweep at `now` takes the row up. */
  predicate Due(r: Row, now: int, interval: int) {
    && r.id.Some?
    && (IsPending(r)
        || (IsUnreachable(r) && r.attempts < MAX_ANSWER_ATTEMPTS
            && Clamp(now - r.updated) >= DueAfter(r.id.value, interval)))
  }

  // --- one attempt ----------------------------------------------------------

  /** How an attempt goes: the issue cannot be read, has no routing labels, has an unusable slug, the
      peer does not answer, or it does. */
  datatype Reply = NoInfo | NoRoute | BadSlug | Refuses | Answers

  /** `clean` is false when the bookkeeping after the state write failed. */
  datatype Try = Try(reply: Reply, clean: bool)

  predicate Counts(t: Try) {
    t.clean && !t.reply.NoInfo?
  }

  /** Only these two got as far as the wire. */
  predicate OnTheWire(t: Try) {
    t.reply.Refuses? || t.reply.Answers?
  }

  function Attempt(r: Row, t: Try, stamp: int): Row {
    match t.reply
    case NoInfo => r
    case Answers => r.(column := Token(AnswerSent), updated := stamp)
    case BadSlug =>
      r.(column := Token(AnswerUnreachable), updated := stamp,
         attempts := if r.attempts < MAX_ANSWER_ATTEMPTS then MAX_ANSWER_ATTEMPTS else r.attempts)
    case _ => r.(column := Token(AnswerUnreachable), updated := stamp, attempts := r.attempts + 1)
  }

  /** What an attempt leaves in the tracker: an answered issue is labelled so and closed; the failure
      that takes it out of pending, and only that one, leaves a blocker for a human. */
  datatype Notice = Closed(row: nat) | Blocker(row: nat)

  function NoticeOf(r: Row, k: nat, t: Try): seq<Notice> {
    if !Counts(t) then []
    else if t.reply.Answers? then [Closed(k)]
    else if IsPending(r) then [Blocker(k)]
    else []
  }

  // --- one sweep ------------------------------------------------------------

  /** The clock at the start of the sweep, and for each row how an attempt would go and when its
      outcome would be written. */
  datatype Sweep = Sweep(now: int, interval: int, reply: nat -> Try, stamp: nat -> int)

  /** One round trip: which row, when the sweep chose it, from what state, when its outcome was
      written, and whether the peer took the answer. */
  datatype Contact = Contact(row: nat, at: int, degraded: bool, stamp: int, answered: bool)

  function ContactOf(r: Row, k: nat, s: Sweep): seq<Contact> {
    if OnTheWire(s.reply(k)) then [Contact(k, s.now, IsUnreachable(r), s.stamp(k), s.reply(k).reply.Answers?)] else []
  }

  function SweepFrom(rows: seq<Row>, k: nat, deliveries: nat, s: Sweep): (r: (seq<Row>, seq<Contact>))
    requires k <= |rows|
    ensures |r.0| == |rows|
    decreases |rows| - k
  {
    if k == |rows| || deliveries >= MAX_ANSWER_DELIVERIES_PER_TICK then (rows, [])
    else if !Due(rows[k], s.now, s.interval) then SweepFrom(rows, k + 1, deliveries, s)
    else
      var n := if Counts(s.reply(k)) then deliveries + 1 else deliveries;
      var (rs, cs) := SweepFrom(rows[k := Attempt(rows[k], s.reply(k), s.stamp(k))], k + 1, n, s);
      (rs, ContactOf(rows[k], k, s) + cs)
  }

  function NoticesFrom(rows: seq<Row>, k: nat, deliveries: nat, s: Sweep): seq<Notice>
    requires k <= |rows|
    decreases |rows| - k
  {
    if k == |rows| || deliveries >= MAX_ANSWER_DELIVERIES_PER_TICK then []
    else if !Due(rows[k], s.now, s.interval) then NoticesFrom(rows, k + 1, deliveries, s)
    else
      NoticeOf(rows[k], k, s.reply(k))
      + NoticesFrom(rows[k := Attempt(rows[k], s.reply(k), s.stamp(k))], k + 1, if Counts(s.reply(k)) then deliveries + 1 else deliveries, s)
  }

  function Swept(rows: seq<Row>, s: Sweep): (seq<Row>, seq<Contact>) {
    SweepFrom(rows, 0, 0, s)
  }

  /** The machine as it runs over the issue table. */
  class Machine {
    var rows: seq<Row>
    var notices: seq<Notice>
    ghost var wire: seq<Contact>

    /** `notices` are the tracker writes made so far. */
    constructor (rows: seq<Row>)
      ensures this.rows == rows && notices == [] && wire == []
    {
      this.rows, notices, wire := rows, [], [];
    }

    /** Arms an inbound issue at its first terminal phase; anything already in the answer machine,
        not terminal, or not inbound is left alone. */
    method OnIssueTerminal(k: nat, stamp: int) returns (armed: bool)
      requires k < |rows|
      modifies this`rows
      ensures rows == old(rows)[k := Armed(old(rows)[k], stamp)]
      ensures armed <==> IsPending(rows[k]) && !Owed(old(rows)[k])
    {
      var row := rows[k];
      if !IsTerminal(row.phase) { return false; }
      if row.column.Token? && IsAnswer(row.column.sub) { return false; }
      if !row.inbound { return false; }
      rows := rows[k := row.(column := Token(AnswerPending), updated := stamp)];
      return true;
    }

    /** Landing an approved issue clears the substate; an answer still owed is armed again. */
    method LandApproved(k: nat, phase: Phase, stamp: int)
      requires k < |rows| && rows[k].phase.AwaitingInboundApproval?
      modifies this`rows
      ensures rows == old(rows)[k := Landed(old(rows)[k], phase, stamp)]
    {
      var owed := Owed(rows[k]);
      rows := rows[k := rows[k].(phase := phase, column := Null, updated := stamp)];
      if owed {
        rows := rows[k := rows[k].(column := Token(AnswerPending), updated := stamp)];
      }
    }

    /** The state first; the label and the close are its courtesy mirror. */
    method RecordSuccess(k: nat, clean: bool, stamp: int)
      requires k < |rows|
      modifies this`rows, this`notices
      ensures rows == old(rows)[k := Attempt(old(rows)[k], Try(Answers, clean), stamp)]
      ensures notices == old(notices) + NoticeOf(old(rows)[k], k, Try(Answers, clean))
    {
      rows := rows[k := rows[k].(column := Token(AnswerSent), updated := stamp)];
      notices := notices + if clean then [Closed(k)] else [];
    }

    method RecordFailure(k: nat, clean: bool, stamp: int)
      requires k < |rows|
      modifies this`rows, this`notices
      ensures rows == old(rows)[k := Attempt(old(rows)[k], Try(Refuses, clean), stamp)]
      ensures notices == old(notices) + NoticeOf(old(rows)[k], k, Try(Refuses, clean))
    {
      var first := IsPending(rows[k]);
      rows := rows[k := rows[k].(column := Token(AnswerUnreachable), updated := stamp, attempts := rows[k].attempts + 1)];
      notices := notices + if first && clean then [Blocker(k)] else [];
    }

    method RecordInvalidSlug(k: nat, clean: bool, stamp: int)
      requires k < |rows|
      modifies this`rows, this`notices
      ensures rows == old(rows)[k := Attempt(old(rows)[k], Try(BadSlug, clean), stamp)]
      ensures notices == old(notices) + NoticeOf(old(rows)[k], k, Try(BadSlug, clean))
    {
      var first := IsPending(rows[k]);
      var attempts := if rows[k].attempts > MAX_ANSWER_ATTEMPTS then rows[k].attempts else MAX_ANSWER_ATTEMPTS;
      rows := rows[k := rows[k].(column := Token(AnswerUnreachable), updated := stamp, attempts := attempts)];
      notices := notices + if first && clean then [Blocker(k)] else [];
    }

    method AttemptDelivery(k: nat, t: Try, stamp: int) returns (ok: bool)
      requires k < |rows|
      modifies this`rows, this`notices
      ensures rows == old(rows)[k := Attempt(old(rows)[k], t, stamp)] && ok == Counts(t)
      ensures notices == old(notices) + NoticeOf(old(rows)[k], k, t)
    {
      match t.reply {
        case NoInfo => return false;
        case NoRoute => RecordFailure(k, t.clean, stamp);
        case BadSlug => RecordInvalidSlug(k, t.clean, stamp);
        case Refuses => RecordFailure(k, t.clean, stamp);
        case Answers => RecordSuccess(k, t.clean, stamp);
      }
      return t.clean;
    }

    method DeliverPending(s: Sweep)
      modifies this
      ensures (rows, wire) == (Swept(old(rows), s).0, old(wire) + Swept(old(rows), s).1)
      ensures notices == old(notices) + NoticesFrom(old(rows), 0, 0, s)
    {
      ghost var before, was, told := rows, wire, notices;
      var deliveries, k := 0, 0;
      while k < |rows|
        invariant k <= |rows| == |before|
        invariant Swept(before, s).0 == SweepFrom(rows, k, deliveries, s).0
        invariant was + Swept(before, s).1 == wire + SweepFrom(rows, k, deliveries, s).1
        invariant told + NoticesFrom(before, 0, 0, s) == notices + NoticesFrom(rows, k, deliveries, s)
      {
        if deliveries >= MAX_ANSWER_DELIVERIES_PER_TICK { break; }
        var row := rows[k];
        k := k + 1;
        if !IsPending(row) && !IsUnreachable(row) { continue; }
        if row.id.None? { continue; }
        if !IsPending(row) {
          if row.attempts >= MAX_ANSWER_ATTEMPTS { continue; }
          if Clamp(s.now - row.updated) < DueAfter(row.id.value, s.interval) { continue; }
        }
        ghost var rest := SweepFrom(rows[k - 1 := Attempt(row, s.reply(k - 1), s.stamp(k - 1))], k,
                                    if Counts(s.reply(k - 1)) then deliveries + 1 else deliveries, s).1;
        assert wire + (ContactOf(row, k - 1, s) + rest) == wire + ContactOf(row, k - 1, s) + rest;
        ghost var news := NoticesFrom(rows[k - 1 := Attempt(row, s.reply(k - 1), s.stamp(k - 1))], k,
                                      if Counts(s.reply(k - 1)) then deliveries + 1 else deliveries, s);
        assert notices + (NoticeOf(row, k - 1, s.reply(k - 1)) + news) == notices + NoticeOf(row, k - 1, s.reply(k - 1)) + news;
        wire := wire + ContactOf(row, k - 1, s);
        var ok := AttemptDelivery(k - 1, s.reply(k - 1), s.stamp(k - 1));
        if ok { deliveries := deliveries + 1; }
      }
      assert wire + [] == wire && notices + [] == notices;
    }
  }

  function Armed(r: Row, stamp: int): Row {
    if IsTerminal(r.phase) && r.inbound && !(r.column.Token? && IsAnswer(r.column.sub))
    then r.(column := Token(AnswerPending), updated := stamp)
    else r
  }

  function Landed(r: Row, phase: Phase, stamp: int): Row {
    r.(phase := phase, column := if Owed(r) then Token(AnswerPending) else Null, updated := stamp)
  }

  // --- what one sweep does --------------------------------------------------

  /** A sweep changes only due rows, each as its own attempt does, and contacts each row once. */
  lemma {:induction false} SweepIsPointwise(rows: seq<Row>, k: nat, n: nat, s: Sweep, j: nat)
    requires k <= |rows| && j < |rows|
    ensures var (rs, cs) := SweepFrom(rows, k, n, s);
      && (rs[j] == rows[j] || (k <= j && Due(rows[j], s.now, s.interval) && rs[j] == Attempt(rows[j], s.reply(j), s.stamp(j))))
      && (j < k ==> rs[j] == rows[j])
    decreases |rows| - k
  {
    if k < |rows| && n < MAX_ANSWER_DELIVERIES_PER_TICK {
      if Due(rows[k], s.now, s.interval) {
        var m := if Counts(s.reply(k)) then n + 1 else n;
        SweepIsPointwise(rows[k := Attempt(rows[k], s.reply(k), s.stamp(k))], k + 1, m, s, j);
      } else {
        SweepIsPointwise(rows, k + 1, n, s, j);
      }
    }
  }

  /** The contacts whose bookkeeping failed afterwards. */
  function Faults(cs: seq<Contact>, s: Sweep): nat {
    if cs == [] then 0 else (if s.reply(cs[0].row).clean then 0 else 1) + Faults(cs[1..], s)
  }

  lemma FaultsOfConcat(r: Row, k: nat, cs: seq<Contact>, s: Sweep)
    ensures var here := ContactOf(r, k, s);
      Faults(here + cs, s) == Faults(cs, s) + if OnTheWire(s.reply(k)) && !s.reply(k).clean then 1 else 0
  {
    var here := ContactOf(r, k, s);
    if here != [] {
      assert (here + cs)[1..] == cs;
    } else {
      assert here + cs == cs;
    }
  }

  /** The cap, exactly as far as it goes: a sweep puts two issues on the wire, and one more for
      every attempt whose bookkeeping failed; a fault-free sweep at most two. */
  lemma {:induction false} FanOutIsCapped(rows: seq<Row>, k: nat, n: nat, s: Sweep)
    requires k <= |rows| && n <= MAX_ANSWER_DELIVERIES_PER_TICK
    ensures var cs := SweepFrom(rows, k, n, s).1;
      |cs| <= MAX_ANSWER_DELIVERIES_PER_TICK - n + Faults(cs, s)
    decreases |rows| - k
  {
    if k < |rows| && n < MAX_ANSWER_DELIVERIES_PER_TICK {
      if Due(rows[k], s.now, s.interval) {
        var m := if Counts(s.reply(k)) then n + 1 else n;
        var next := rows[k := Attempt(rows[k], s.reply(k), s.stamp(k))];
        FanOutIsCapped(next, k + 1, m, s);
        FaultsOfConcat(rows[k], k, SweepFrom(next, k + 1, m, s).1, s);
      } else {
        FanOutIsCapped(rows, k + 1, n, s);
      }
    }
  }

  /** What a sweep tells humans is what it did, as far as its bookkeeping went through: an issue is closed
      exactly when its answer was sent, and gets its one blocker exactly when it leaves pending
      unanswered. */
  lemma {:induction false} NoticesAreExact(rows: seq<Row>, k: nat, n: nat, s: Sweep, j: nat)
    requires k <= |rows| && j < |rows|
    ensures var r, notices := SweepFrom(rows, k, n, s).0[j], NoticesFrom(rows, k, n, s);
      && (Closed(j) in notices <==> r != rows[j] && Owed(rows[j]) && !Owed(r) && s.reply(j).clean)
      && (Blocker(j) in notices <==> IsPending(rows[j]) && IsUnreachable(r) && s.reply(j).clean)
    decreases |rows| - k
  {
    if k < |rows| && n < MAX_ANSWER_DELIVERIES_PER_TICK {
      if Due(rows[k], s.now, s.interval) {
        var m := if Counts(s.reply(k)) then n + 1 else n;
        var next := rows[k := Attempt(rows[k], s.reply(k), s.stamp(k))];
        NoticesAreExact(next, k + 1, m, s, j);
        SweepIsPointwise(next, k + 1, m, s, j);
        NoticesAreLater(next, k + 1, m, s, k);
      } else {
        NoticesAreExact(rows, k + 1, n, s, j);
      }
    }
  }

  lemma {:induction false} NoticesAreLater(rows: seq<Row>, k: nat, n: nat, s: Sweep, j: nat)
    requires j < k <= |rows|
    ensures Closed(j) !in NoticesFrom(rows, k, n, s) && Blocker(j) !in NoticesFrom(rows, k, n, s)
    decreases |rows| - k
  {
    if k < |rows| && n < MAX_ANSWER_DELIVERIES_PER_TICK {
      if Due(rows[k], s.now, s.interval) {
        var m := if Counts(s.reply(k)) then n + 1 else n;
        NoticesAreLater(rows[k := Attempt(rows[k], s.reply(k), s.stamp(k))], k + 1, m, s, j);
      } else {
        NoticesAreLater(rows, k + 1, n, s, j);
      }
    }
  }

  /** A failure no retry can fix is retired: no later sweep takes the row up again. */
  lemma RetiredIsNeverDue(r: Row, clean: bool, stamp: int, now: int, interval: int)
    ensures !Due(Attempt(r, Try(BadSlug, clean), stamp), now, interval)
    ensures Attempt(r, Try(BadSlug, clean), stamp).attempts >= r.attempts
  {
  }

  lemma JitterIsBounded(id: int, interval: int)
    ensures 0 <= Jitter(id, interval)
    ensures interval >= 0 ==> 4 * Jitter(id, interval) <= interval
  {
  }

  // --- runs -----------------------------------------------------------------

  datatype World = World(rows: seq<Row>, wire: seq<Contact>)

  /** A drivable issue is driven to a terminal phase or requeued; an approved one is landed; a sweep
      runs. */
  datatype Event =
    | Drive(row: nat, phase: Phase, stamp: int)
    | Approve(row: nat, phase: Phase, stamp: int)
    | Deliver(sweep: Sweep)

  predicate Enabled(w: World, e: Event) {
    match e
    case Drive(k, phase, stamp) => k < |w.rows| && IsDrivable(w.rows[k].phase) && (IsTerminal(phase) || phase.Implementing?)
    case Approve(k, phase, stamp) => k < |w.rows| && w.rows[k].phase.AwaitingInboundApproval? && IsTerminal(phase)
    case Deliver(_) => true
  }

  function After(w: World, e: Event): World
    requires Enabled(w, e)
  {
    match e
    case Drive(k, phase, stamp) =>
      w.(rows := w.rows[k := Armed(w.rows[k].(phase := phase, column := Null, updated := stamp), stamp)])
    case Approve(k, phase, stamp) => w.(rows := w.rows[k := Landed(w.rows[k], phase, stamp)])
    case Deliver(s) => World(Swept(w.rows, s).0, w.wire + Swept(w.rows, s).1)
  }

  ghost predicate IsRun(ws: seq<World>, es: seq<Event>) {
    && |ws| == |es| + 1
    && forall k :: 0 <= k < |es| ==> Enabled(ws[k], es[k]) && ws[k + 1] == After(ws[k], es[k])
  }

  /** Every issue is still to be driven and nobody has been contacted. */
  predicate Fresh(w: World) {
    w.wire == [] && forall k :: 0 <= k < |w.rows| ==>
      IsDrivable(w.rows[k].phase) && !(w.rows[k].column.Token? && IsAnswer(w.rows[k].column.sub)) && w.rows[k].attempts == 0
  }

  /** How often the peer of row `k` took an answer. */
  function Answered(wire: seq<Contact>, k: nat): nat {
    if wire == [] then 0
    else Answered(wire[..|wire| - 1], k) + if wire[|wire| - 1].row == k && wire[|wire| - 1].answered then 1 else 0
  }

  lemma {:induction false} AnsweredOfConcat(a: seq<Contact>, b: seq<Contact>, k: nat)
    ensures Answered(a + b, k) == Answered(a, k) + Answered(b, k)
    decreases |b|
  {
    if b == [] {
      assert a + b == a;
    } else {
      assert (a + b)[..|a + b| - 1] == a + b[..|b| - 1];
      AnsweredOfConcat(a, b[..|b| - 1], k);
    }
  }

  lemma AnsweredByOne(r: Row, k: nat, s: Sweep, j: nat)
    ensures Answered(ContactOf(r, k, s), j) == if j == k && s.reply(k).reply.Answers? then 1 else 0
  {
    var c := ContactOf(r, k, s);
    if c != [] { assert c[..0] == []; }
  }

  /** A sweep answers a row only if it owed an answer, and then the row stops owing it. */
  lemma {:induction false} SweepAnswersOwed(rows: seq<Row>, k: nat, n: nat, s: Sweep, j: nat)
    requires k <= |rows|
    ensures var (rs, cs) := SweepFrom(rows, k, n, s);
      if j < |rows| && k <= j && Owed(rows[j]) && !Owed(rs[j]) then Answered(cs, j) == 1 && rs[j].column == Token(AnswerSent)
      else Answered(cs, j) == 0
    decreases |rows| - k
  {
    if k < |rows| && n < MAX_ANSWER_DELIVERIES_PER_TICK {
      if Due(rows[k], s.now, s.interval) {
        var m := if Counts(s.reply(k)) then n + 1 else n;
        var next := rows[k := Attempt(rows[k], s.reply(k), s.stamp(k))];
        SweepAnswersOwed(next, k + 1, m, s, j);
        AnsweredByOne(rows[k], k, s, j);
        AnsweredOfConcat(ContactOf(rows[k], k, s), SweepFrom(next, k + 1, m, s).1, j);
        if k < |rows| { SweepIsPointwise(next, k + 1, m, s, k); }
      } else {
        SweepAnswersOwed(rows, k + 1, n, s, j);
        SweepIsPointwise(rows, k + 1, n, s, k);
      }
    }
  }

  /** What every issue satisfies: undriven and unarmed, or ended; and an inbound issue that ended has
      either had its one answer or still owes it. */
  predicate Settled(w: World, k: nat)
    requires k < |w.rows|
  {
    var r, answers := w.rows[k], Answered(w.wire, k);
    if IsDrivable(r.phase) then !(r.column.Token? && IsAnswer(r.column.sub)) && answers == 0
    else IsTerminal(r.phase) && (if r.inbound then answers + (if Owed(r) then 1 else 0) == 1 else answers == 0 && !Owed(r))
  }

  lemma StepSettles(w: World, e: Event, k: nat)
    requires Enabled(w, e) && k < |w.rows| && Settled(w, k)
    ensures |After(w, e).rows| == |w.rows| && Settled(After(w, e), k)
  {
    hide SweepFrom, Answered;
    if e.Deliver? {
      SweepIsPointwise(w.rows, 0, 0, e.sweep, k);
      SweepAnswersOwed(w.rows, 0, 0, e.sweep, k);
      AnsweredOfConcat(w.wire, Swept(w.rows, e.sweep).1, k);
    }
  }

  lemma {:induction false} AlwaysSettled(ws: seq<World>, es: seq<Event>, n: nat, k: nat)
    requires IsRun(ws, es) && Fresh(ws[0]) && n < |ws| && k < |ws[0].rows|
    ensures |ws[n].rows| == |ws[0].rows| && Settled(ws[n], k)
    decreases n
  {
    if n > 0 {
      AlwaysSettled(ws, es, n - 1, k);
      StepSettles(ws[n - 1], es[n - 1], k);
      assert ws[n - 1 + 1] == After(ws[n - 1], es[n - 1]);
    }
  }

  /** Answered exactly once: over every run of drives, approvals and sweeps, a peer never takes two
      answers for one issue, and once an inbound issue has ended, parked or landed, it has either
      been answered or is still owed, never neither. */
  lemma AnsweredExactlyOnce(ws: seq<World>, es: seq<Event>, n: nat, k: nat)
    requires IsRun(ws, es) && Fresh(ws[0]) && n < |ws| && k < |ws[0].rows|
    ensures |ws[n].rows| == |ws[0].rows|
    ensures Answered(ws[n].wire, k) <= 1
    ensures var r := ws[n].rows[k];
      IsTerminal(r.phase) && r.inbound ==> (Answered(ws[n].wire, k) == 0 <==> Owed(r))
  {
    AlwaysSettled(ws, es, n, k);
  }

  /** Landing an approved issue owes the answer again exactly when it was not delivered before. */
  lemma ApprovalRearms(ws: seq<World>, es: seq<Event>, n: nat)
    requires IsRun(ws, es) && Fresh(ws[0]) && n < |es| && es[n].Approve?
    requires es[n].row < |ws[0].rows|
    ensures es[n].row < |ws[n].rows| == |ws[n + 1].rows|
    ensures ws[n].rows[es[n].row].inbound ==>
      (IsPending(ws[n + 1].rows[es[n].row]) <==> Answered(ws[n].wire, es[n].row) == 0)
  {
    AlwaysSettled(ws, es, n, es[n].row);
    AlwaysSettled(ws, es, n + 1, es[n].row);
    assert ws[n + 1] == After(ws[n], es[n]);
  }

  // --- bounds on retrying ---------------------------------------------------

  function Rearms(ws: seq<World>, es: seq<Event>, n: nat, k: nat): nat
    requires n <= |es| && n < |ws|
  {
    if n == 0 then 0
    else
      var again := es[n - 1].Approve? && es[n - 1].row == k && k < |ws[n - 1].rows| && Owed(ws[n - 1].rows[k]);
      Rearms(ws, es, n - 1, k) + if again then 1 else 0
  }

  /** Failed attempts never exceed twelve, plus one for each time an owed answer was armed again. */
  lemma {:induction false} AttemptsAreBounded(ws: seq<World>, es: seq<Event>, n: nat, k: nat)
    requires IsRun(ws, es) && Fresh(ws[0]) && n < |ws| && k < |ws[0].rows|
    ensures |ws[n].rows| == |ws[0].rows|
    ensures ws[n].rows[k].attempts <= MAX_ANSWER_ATTEMPTS + Rearms(ws, es, n, k)
    ensures IsPending(ws[n].rows[k]) ==> ws[n].rows[k].attempts < MAX_ANSWER_ATTEMPTS + Rearms(ws, es, n, k)
    decreases n
  {
    hide SweepFrom;
    if n > 0 {
      AttemptsAreBounded(ws, es, n - 1, k);
      AlwaysSettled(ws, es, n - 1, k);
      var w, e := ws[n - 1], es[n - 1];
      assert ws[n - 1 + 1] == After(w, e);
      if e.Deliver? { SweepIsPointwise(w.rows, 0, 0, e.sweep, k); }
      UndrivenNeverFailed(ws, es, n - 1, k);
    }
  }

  lemma {:induction false} UndrivenNeverFailed(ws: seq<World>, es: seq<Event>, n: nat, k: nat)
    requires IsRun(ws, es) && Fresh(ws[0]) && n < |ws| && k < |ws[0].rows|
    ensures |ws[n].rows| == |ws[0].rows|
    ensures IsDrivable(ws[n].rows[k].phase) ==> ws[n].rows[k].attempts == 0
    decreases n
  {
    if n > 0 {
      hide SweepFrom, Answered;
      UndrivenNeverFailed(ws, es, n - 1, k);
      AlwaysSettled(ws, es, n - 1, k);
      assert ws[n - 1 + 1] == After(ws[n - 1], es[n - 1]);
      if es[n - 1].Deliver? { SweepIsPointwise(ws[n - 1].rows, 0, 0, es[n - 1].sweep, k); }
    }
  }

  /** Arming again does let one attempt past the bound: twelve failures while parked, then one more
      after the landing. */
  lemma RearmPassesTheBound(r: Row, phase: Phase, s: Sweep)
    requires r.phase.AwaitingInboundApproval? && IsUnreachable(r) && r.attempts == MAX_ANSWER_ATTEMPTS && r.id.Some?
    requires s.reply(0).reply.Refuses?
    ensures Swept([r], s).0 == [r]
    ensures Swept([Landed(r, phase, s.now)], s).0[0].attempts == MAX_ANSWER_ATTEMPTS + 1
  {
    var landed := Landed(r, phase, s.now);
    SweepIsPointwise([landed], 1, 0, s, 0);
    assert SweepFrom([r], 1, 0, s).0 == [r];
    var after := [landed][0 := Attempt(landed, s.reply(0), s.stamp(0))];
    SweepIsPointwise(after, 1, if Counts(s.reply(0)) then 1 else 0, s, 0);
  }

  /** The clock never runs backwards: writes are stamped no earlier than anything stamped before. */
  predicate Clocked(w: World, e: Event, interval: int) {
    match e
    case Drive(k, _, stamp) => k < |w.rows| ==> w.rows[k].updated <= stamp
    case Approve(k, _, stamp) => k < |w.rows| ==> w.rows[k].updated <= stamp
    case Deliver(s) => s.interval == interval && forall k :: 0 <= k < |w.rows| ==> w.rows[k].updated <= s.now <= s.stamp(k)
  }

  /** Two contacts with one row, the later one a retry, are spaced out. */
  predicate Spaced(rows: seq<Row>, wire: seq<Contact>, interval: int) {
    forall i, j :: 0 <= i < j < |wire| && wire[i].row == wire[j].row && wire[j].degraded ==>
      wire[j].row < |rows| && rows[wire[j].row].id.Some?
      && wire[j].at - wire[i].stamp >= DueAfter(rows[wire[j].row].id.value, interval)
  }

  /** The last write to a row is no older than any contact with it. */
  predicate Dated(rows: seq<Row>, wire: seq<Contact>) {
    forall i :: 0 <= i < |wire| ==> wire[i].row < |rows| && wire[i].stamp <= rows[wire[i].row].updated
  }

  lemma ContactIsSpaced(rows: seq<Row>, k: nat, s: Sweep, wire: seq<Contact>)
    requires k < |rows| && Dated(rows, wire) && Spaced(rows, wire, s.interval)
    requires Due(rows[k], s.now, s.interval) && rows[k].updated <= s.now <= s.stamp(k)
    ensures var next := rows[k := Attempt(rows[k], s.reply(k), s.stamp(k))];
      Dated(next, wire + ContactOf(rows[k], k, s)) && Spaced(next, wire + ContactOf(rows[k], k, s), s.interval)
  {
    hide DueAfter;
    var here := ContactOf(rows[k], k, s);
    if here == [] { assert wire + here == wire; }
  }

  lemma {:induction false} SweepIsSpaced(rows: seq<Row>, k: nat, n: nat, s: Sweep, wire: seq<Contact>)
    requires k <= |rows| && Dated(rows, wire) && Spaced(rows, wire, s.interval)
    requires forall j :: k <= j < |rows| ==> rows[j].updated <= s.now <= s.stamp(j)
    ensures var (rs, cs) := SweepFrom(rows, k, n, s);
      Dated(rs, wire + cs) && Spaced(rs, wire + cs, s.interval)
    decreases |rows| - k
  {
    hide Dated, Spaced, Due, Attempt, ContactOf;
    if k == |rows| || n >= MAX_ANSWER_DELIVERIES_PER_TICK {
      assert wire + [] == wire;
    } else if Due(rows[k], s.now, s.interval) {
      var m := if Counts(s.reply(k)) then n + 1 else n;
      var next := rows[k := Attempt(rows[k], s.reply(k), s.stamp(k))];
      var here := ContactOf(rows[k], k, s);
      ContactIsSpaced(rows, k, s, wire);
      SweepIsSpaced(next, k + 1, m, s, wire + here);
      assert wire + here + SweepFrom(next, k + 1, m, s).1 == wire + (here + SweepFrom(next, k + 1, m, s).1);
    } else {
      SweepIsSpaced(rows, k + 1, n, s, wire);
    }
  }

  lemma StepIsSpaced(w: World, e: Event, interval: int)
    requires Enabled(w, e) && Clocked(w, e, interval) && Dated(w.rows, w.wire) && Spaced(w.rows, w.wire, interval)
    ensures Dated(After(w, e).rows, After(w, e).wire) && Spaced(After(w, e).rows, After(w, e).wire, interval)
  {
    hide DueAfter, SweepFrom;
    if e.Deliver? { SweepIsSpaced(w.rows, 0, 0, e.sweep, w.wire); }
  }

  lemma {:induction false} RetriesAreSpaced(ws: seq<World>, es: seq<Event>, n: nat, interval: int)
    requires IsRun(ws, es) && Fresh(ws[0]) && n < |ws|
    requires forall k :: 0 <= k < |es| ==> Clocked(ws[k], es[k], interval)
    ensures Dated(ws[n].rows, ws[n].wire) && Spaced(ws[n].rows, ws[n].wire, interval)
    decreases n
  {
    if n > 0 {
      hide After, Enabled, Clocked, Dated, Spaced, Fresh;
      RetriesAreSpaced(ws, es, n - 1, interval);
      assert ws[n - 1 + 1] == After(ws[n - 1], es[n - 1]) && Clocked(ws[n - 1], es[n - 1], interval);
      StepIsSpaced(ws[n - 1], es[n - 1], interval);
    }
  }

  // --- no starvation --------------------------------------------------------

  /** Rows a sweep at the end of the window would still take up. */
  function Waiting(rows: seq<Row>, k: nat, now: int, interval: int): nat
    requires k <= |rows|
    decreases |rows| - k
  {
    if k == |rows| then 0
    else (if Due(rows[k], now, interval) then 1 else 0) + Waiting(rows, k + 1, now, interval)
  }

  lemma {:induction false} WaitingDrops(rows: seq<Row>, next: seq<Row>, k: nat, j: nat, now: int, interval: int)
    requires k <= |rows| == |next| && j < |rows|
    requires forall i :: 0 <= i < |rows| && i != j ==> next[i] == rows[i]
    requires Due(rows[j], now, interval) && !Due(next[j], now, interval)
    ensures Waiting(next, k, now, interval) == Waiting(rows, k, now, interval) - if k <= j then 1 else 0
    decreases |rows| - k
  {
    if k < |rows| { WaitingDrops(rows, next, k + 1, j, now, interval); }
  }

  predicate FaultFree(s: Sweep, rows: nat) {
    forall k :: 0 <= k < rows ==> Counts(s.reply(k))
  }

  /** Due now means due at the end of the window; attempted now means not due again inside it. */
  lemma AttemptLeavesWindow(r: Row, t: Try, stamp: int, s: Sweep, last: int)
    requires Due(r, s.now, s.interval) && s.now <= stamp && s.now <= last && last - s.now < s.interval <= I64_MAX && !t.reply.NoInfo?
    ensures Due(r, last, s.interval) && !Due(Attempt(r, t, stamp), last, s.interval) && !IsPending(Attempt(r, t, stamp))
  {
    if !t.reply.Answers? {
      assert last - stamp < s.interval;
    }
  }

  /** A fault-free sweep inside the window attempts two waiting rows, or all the pending ones. */
  lemma {:induction false} SweepServes(rows: seq<Row>, k: nat, n: nat, s: Sweep, last: int)
    requires k <= |rows| && n <= MAX_ANSWER_DELIVERIES_PER_TICK && FaultFree(s, |rows|)
    requires s.now <= last && last - s.now < s.interval <= I64_MAX
    requires forall j :: 0 <= j < |rows| ==> s.now <= s.stamp(j) && rows[j].id.Some?
    ensures var rs := SweepFrom(rows, k, n, s).0;
      && Waiting(rs, 0, last, s.interval) <= Waiting(rows, 0, last, s.interval)
      && (Waiting(rs, 0, last, s.interval) == Waiting(rows, 0, last, s.interval) - (MAX_ANSWER_DELIVERIES_PER_TICK - n)
          || forall j :: k <= j < |rows| ==> !IsPending(rs[j]))
      && (forall j :: 0 <= j < |rows| && IsPending(rs[j]) ==> IsPending(rows[j]))
      && (forall j :: 0 <= j < |rows| ==> rs[j].id == rows[j].id)
    decreases |rows| - k
  {
    hide Waiting, DueAfter;
    if k < |rows| && n < MAX_ANSWER_DELIVERIES_PER_TICK {
      if Due(rows[k], s.now, s.interval) {
        var next := rows[k := Attempt(rows[k], s.reply(k), s.stamp(k))];
        AttemptLeavesWindow(rows[k], s.reply(k), s.stamp(k), s, last);
        WaitingDrops(rows, next, 0, k, last, s.interval);
        SweepServes(next, k + 1, n + 1, s, last);
        SweepIsPointwise(next, k + 1, n + 1, s, k);
      } else {
        SweepServes(rows, k + 1, n, s, last);
        SweepIsPointwise(rows, k + 1, n, s, k);
      }
    }
  }

  function Sweeps(rows: seq<Row>, ss: seq<Sweep>): (rs: seq<Row>)
    ensures |rs| == |rows|
    decreases |ss|
  {
    if ss == [] then rows else Sweeps(Swept(rows, ss[0]).0, ss[1..])
  }

  predicate InWindow(s: Sweep, rows: nat, interval: int, last: int) {
    && s.interval == interval && s.now <= last && last - s.now < interval <= I64_MAX
    && FaultFree(s, rows) && forall j :: 0 <= j < rows ==> s.now <= s.stamp(j)
  }

  lemma {:induction false} PendingStaysServed(rows: seq<Row>, ss: seq<Sweep>, interval: int, last: int)
    requires forall j :: 0 <= j < |ss| ==> InWindow(ss[j], |rows|, interval, last)
    requires forall j :: 0 <= j < |rows| ==> rows[j].id.Some? && !IsPending(rows[j])
    ensures forall j :: 0 <= j < |rows| ==> !IsPending(Sweeps(rows, ss)[j])
    decreases |ss|
  {
    if ss != [] {
      SweepServes(rows, 0, 0, ss[0], last);
      PendingStaysServed(Swept(rows, ss[0]).0, ss[1..], interval, last);
    }
  }

  lemma {:induction false} NothingWaits(rows: seq<Row>, k: nat, now: int, interval: int, j: nat)
    requires k <= j < |rows| && Waiting(rows, k, now, interval) == 0 && rows[j].id.Some?
    ensures !IsPending(rows[j])
    decreases |rows| - k
  {
    if k < j { NothingWaits(rows, k + 1, now, interval, j); }
  }

  /** No starvation: when as many fault-free sweeps as half the waiting issues happen within less than
      one retry interval, no issue is still pending, wherever it stands in the table. */
  lemma {:induction false} PendingIsServed(rows: seq<Row>, ss: seq<Sweep>, interval: int, last: int)
    requires forall j :: 0 <= j < |ss| ==> InWindow(ss[j], |rows|, interval, last)
    requires forall j :: 0 <= j < |rows| ==> rows[j].id.Some?
    requires Waiting(rows, 0, last, interval) <= 2 * |ss|
    ensures forall j :: 0 <= j < |rows| ==> !IsPending(Sweeps(rows, ss)[j])
    decreases |ss|
  {
    if ss == [] {
      forall j | 0 <= j < |rows| ensures !IsPending(rows[j]) {
        NothingWaits(rows, 0, last, interval, j);
      }
    } else {
      SweepServes(rows, 0, 0, ss[0], last);
      var next := Swept(rows, ss[0]).0;
      if forall j :: 0 <= j < |rows| ==> !IsPending(next[j]) {
        PendingStaysServed(next, ss[1..], interval, last);
      } else {
        PendingIsServed(next, ss[1..], interval, last);
      }
    }
  }

  // --- crashes --------------------------------------------------------------

  /** What a crash can make of an event: the terminal phase is written and nothing is armed; an approved
      landing, which clears the substate, is completed by the restart and nothing is armed again; a
      sweep stops at some row, whose peer may have been contacted without a record. */
  datatype Fate =
    | Lives(event: Event)
    | DriveDies(row: nat, phase: Phase, stamp: int)
    | ApproveDies(row: nat, phase: Phase, stamp: int)
    | SweepDies(sweep: Sweep, row: nat, unrecorded: bool)

  predicate CanMeet(w: World, f: Fate) {
    match f
    case Lives(e) => Enabled(w, e)
    case DriveDies(k, phase, _) => k < |w.rows| && IsDrivable(w.rows[k].phase) && IsTerminal(phase)
    case ApproveDies(k, phase, _) => k < |w.rows| && w.rows[k].phase.AwaitingInboundApproval? && IsTerminal(phase)
    case SweepDies(_, k, _) => k < |w.rows|
  }

  /** The sweep as far as row `k`. */
  function UpTo(s: Sweep, k: nat): Sweep {
    s.(reply := (j: nat) => if j < k then s.reply(j) else Try(NoInfo, false))
  }

  function Meets(w: World, f: Fate): World
    requires CanMeet(w, f)
  {
    match f
    case Lives(e) => After(w, e)
    case DriveDies(k, phase, stamp) => w.(rows := w.rows[k := w.rows[k].(phase := phase, column := Null, updated := stamp)])
    case ApproveDies(k, phase, stamp) => w.(rows := w.rows[k := w.rows[k].(phase := phase, column := Null, updated := stamp)])
    case SweepDies(s, k, unrecorded) =>
      var (rows, wire) := Swept(w.rows, UpTo(s, k));
      World(rows, w.wire + wire + if unrecorded && Due(rows[k], s.now, s.interval) then ContactOf(rows[k], k, s) else [])
  }

  ghost predicate IsCrashyRun(ws: seq<World>, fs: seq<Fate>) {
    && |ws| == |fs| + 1
    && forall k :: 0 <= k < |fs| ==> CanMeet(ws[k], fs[k]) && ws[k + 1] == Meets(ws[k], fs[k])
  }

  /** A crash in one of the two windows drops what an inbound issue was owed or about to be owed. */
  predicate Drops(w: World, f: Fate, k: nat)
    requires k < |w.rows|
  {
    w.rows[k].inbound && ((f.DriveDies? && f.row == k) || (f.ApproveDies? && f.row == k && Owed(w.rows[k])))
  }

  /** A crash between the peer's acceptance and its record. */
  predicate Repeats(w: World, f: Fate, k: nat)
    requires CanMeet(w, f)
  {
    f.SweepDies? && f.row == k && f.unrecorded && f.sweep.reply(k).reply.Answers?
    && Due(Swept(w.rows, UpTo(f.sweep, k)).0[k], f.sweep.now, f.sweep.interval)
  }

  function Dropped(ws: seq<World>, fs: seq<Fate>, n: nat, k: nat): nat
    requires n <= |fs| && n < |ws| && forall j :: 0 <= j < n ==> k < |ws[j].rows|
  {
    if n == 0 then 0 else Dropped(ws, fs, n - 1, k) + if Drops(ws[n - 1], fs[n - 1], k) then 1 else 0
  }

  function Repeated(ws: seq<World>, fs: seq<Fate>, n: nat, k: nat): nat
    requires n <= |fs| && n < |ws| && forall j :: 0 <= j < n ==> CanMeet(ws[j], fs[j])
  {
    if n == 0 then 0 else Repeated(ws, fs, n - 1, k) + if Repeats(ws[n - 1], fs[n - 1], k) then 1 else 0
  }

  /** Answers, debts and losses balance. */
  predicate Balances(w: World, k: nat, dropped: nat, repeated: nat)
    requires k < |w.rows|
  {
    var r, answers := w.rows[k], Answered(w.wire, k);
    && (IsDrivable(r.phase) ==> !(r.column.Token? && IsAnswer(r.column.sub)) && answers == dropped == repeated == 0)
    && (!IsDrivable(r.phase) ==> IsTerminal(r.phase))
    && (!IsDrivable(r.phase) && r.inbound ==> answers + (if Owed(r) then 1 else 0) + dropped == 1 + repeated)
    && (!IsDrivable(r.phase) && !r.inbound ==> answers == 0 && !Owed(r) && dropped == repeated == 0)
  }

  lemma CutSweepBalances(w: World, s: Sweep, row: nat, unrecorded: bool, k: nat, dropped: nat, repeated: nat)
    requires row < |w.rows| && k < |w.rows| && Balances(w, k, dropped, repeated)
    ensures var f := SweepDies(s, row, unrecorded);
      |Meets(w, f).rows| == |w.rows| && Balances(Meets(w, f), k, dropped, repeated + if Repeats(w, f, k) then 1 else 0)
  {
    hide SweepFrom, Answered;
    var cut := UpTo(s, row);
    var (rows, wire) := Swept(w.rows, cut);
    SweepIsPointwise(w.rows, 0, 0, cut, k);
    SweepAnswersOwed(w.rows, 0, 0, cut, k);
    var last := if unrecorded && Due(rows[row], s.now, s.interval) then ContactOf(rows[row], row, s) else [];
    AnsweredByOne(rows[row], row, s, k);
    NobodyAnswered(k);
    AnsweredOfConcat(w.wire + wire, last, k);
    AnsweredOfConcat(w.wire, wire, k);
  }

  lemma NobodyAnswered(k: nat)
    ensures Answered([], k) == 0
  {
  }

  lemma FateBalances(w: World, f: Fate, k: nat, dropped: nat, repeated: nat)
    requires CanMeet(w, f) && k < |w.rows| && Balances(w, k, dropped, repeated)
    ensures |Meets(w, f).rows| == |w.rows|
    ensures Balances(Meets(w, f), k, dropped + (if Drops(w, f, k) then 1 else 0), repeated + if Repeats(w, f, k) then 1 else 0)
  {
    hide SweepFrom, Answered;
    match f
    case SweepDies(s, row, unrecorded) => CutSweepBalances(w, s, row, unrecorded, k, dropped, repeated);
    case Lives(e) => if e.Deliver? { SweepBalances(w, e.sweep, k, dropped, repeated); }
    case _ =>
  }

  lemma SweepBalances(w: World, s: Sweep, k: nat, dropped: nat, repeated: nat)
    requires k < |w.rows| && Balances(w, k, dropped, repeated)
    ensures |Swept(w.rows, s).0| == |w.rows| && Balances(World(Swept(w.rows, s).0, w.wire + Swept(w.rows, s).1), k, dropped, repeated)
  {
    hide SweepFrom, Answered;
    SweepIsPointwise(w.rows, 0, 0, s, k);
    SweepAnswersOwed(w.rows, 0, 0, s, k);
    AnsweredOfConcat(w.wire, Swept(w.rows, s).1, k);
  }

  lemma {:induction false} AlwaysBalances(ws: seq<World>, fs: seq<Fate>, n: nat, k: nat)
    requires IsCrashyRun(ws, fs) && Fresh(ws[0]) && n < |ws| && k < |ws[0].rows|
    ensures forall j :: 0 <= j <= n ==> |ws[j].rows| == |ws[0].rows|
    ensures Balances(ws[n], k, Dropped(ws, fs, n, k), Repeated(ws, fs, n, k))
    decreases n
  {
    hide Balances, Drops, Repeats, Meets, CanMeet;
    if n > 0 {
      AlwaysBalances(ws, fs, n - 1, k);
      FateBalances(ws[n - 1], fs[n - 1], k, Dropped(ws, fs, n - 1, k), Repeated(ws, fs, n - 1, k));
      assert ws[n - 1 + 1] == Meets(ws[n - 1], fs[n - 1]);
    } else {
      FreshBalances(ws[0], k);
    }
  }

  lemma FreshBalances(w: World, k: nat)
    requires Fresh(w) && k < |w.rows|
    ensures Balances(w, k, 0, 0)
  {
  }

  /** Answering across crashes, exactly: an inbound issue that has ended has been answered or is still
      owed, once over for each crash between acceptance and record, and once less for each crash that
      dropped the debt; so it is left with neither exactly when a drop was not made up for. */
  lemma AnsweredAcrossCrashes(ws: seq<World>, fs: seq<Fate>, n: nat, k: nat)
    requires IsCrashyRun(ws, fs) && Fresh(ws[0]) && n < |ws| && k < |ws[0].rows|
    ensures forall j :: 0 <= j <= n ==> |ws[j].rows| == |ws[0].rows|
    ensures var r, answers := ws[n].rows[k], Answered(ws[n].wire, k);
      && answers <= 1 + Repeated(ws, fs, n, k)
      && (IsTerminal(r.phase) && r.inbound ==>
            && answers + (if Owed(r) then 1 else 0) + Dropped(ws, fs, n, k) == 1 + Repeated(ws, fs, n, k)
            && (answers == 0 && !Owed(r) <==> Dropped(ws, fs, n, k) == 1 + Repeated(ws, fs, n, k)))
  {
    AlwaysBalances(ws, fs, n, k);
  }

  /** Both windows do lose an answer, and the third repeats one. */
  lemma CrashWindows(r: Row, phase: Phase, stamp: int, s: Sweep)
    requires r.inbound && IsTerminal(phase) && r.id.Some?
    ensures IsDrivable(r.phase) ==> !Owed(Meets(World([r], []), DriveDies(0, phase, stamp)).rows[0])
    ensures r.phase.AwaitingInboundApproval? && Owed(r) ==> !Owed(Meets(World([r], []), ApproveDies(0, phase, stamp)).rows[0])
    ensures IsPending(r) && s.reply(0).reply.Answers? ==>
      var v := Meets(World([r], []), SweepDies(s, 0, true)); Answered(v.wire, 0) == 1 && IsPending(v.rows[0])
  {
    var cut := UpTo(s, 0);
    assert Swept([r], cut) == ([r], []) by {
      assert [r][0 := Attempt(r, cut.reply(0), cut.stamp(0))] == [r];
      assert SweepFrom([r], 1, 0, cut) == ([r], []) && ContactOf(r, 0, cut) + [] == [];
    }
    AnsweredByOne(r, 0, s, 0);
    assert [] + [] + ContactOf(r, 0, s) == ContactOf(r, 0, s);
  }
}
