/** When a sweep reaches a peer, in seconds and in places in the table. */
module AnswerTimes {
  import opened Common
  import opened State
  import opened Answers

  predicate IsI64(x: int) {
    -0x8000_0000_0000_0000 <= x <= 0x7FFF_FFFF_FFFF_FFFF
  }

  /** A quarter of the interval, less one second, is as far as retries are spread; the time to wait
      saturates at the end of the clock, and the time gone by at both ends. */
  predicate HasWaited(elapsed: int, id: int, interval: int) {
    || elapsed >= interval + (if interval < 4 then 0 else (if id < 0 then -id else id) % (interval / 4))
    || elapsed >= 0x7FFF_FFFF_FFFF_FFFF
    || interval == -0x8000_0000_0000_0000
  }

  /** An answer still owed to a routable peer: a fresh one, or a degraded one with attempts to spare that
      has waited since its last. */
  predicate Ready(r: Row, s: Sweep) {
    && r.id.Some?
    && (r.column == Token(AnswerPending)
        || (r.column == Token(AnswerUnreachable) && r.attempts < 12 && HasWaited(s.now - r.updated, r.id.value, s.interval)))
  }

  lemma ReadyIsDue(r: Row, s: Sweep)
    requires IsI64(s.interval)
    ensures Ready(r, s) <==> Due(r, s.now, s.interval)
  {
    hide Jitter;
    if r.id.Some? {
      JitterWrittenOut(r.id.value, s.interval);
    }
  }

  lemma JitterWrittenOut(id: int, interval: int)
    ensures Jitter(id, interval) == if interval < 4 then 0 else (if id < 0 then -id else id) % (interval / 4)
  {
  }

  /** Any two contacts with one peer, the later a retry, lie that far apart, over every run. */
  lemma RetriesWaitTheirTime(ws: seq<World>, es: seq<Event>, n: nat, interval: int, i: nat, j: nat)
    requires IsRun(ws, es) && Fresh(ws[0]) && n < |ws| && IsI64(interval)
    requires forall k :: 0 <= k < |es| ==> Clocked(ws[k], es[k], interval)
    requires i < j < |ws[n].wire| && ws[n].wire[i].row == ws[n].wire[j].row && ws[n].wire[j].degraded
    ensures var k, elapsed := ws[n].wire[j].row, ws[n].wire[j].at - ws[n].wire[i].stamp;
      k < |ws[n].rows| && ws[n].rows[k].id.Some? && HasWaited(elapsed, ws[n].rows[k].id.value, interval)
  {
    hide IsRun, Fresh, Clocked, Jitter;
    RetriesAreSpaced(ws, es, n, interval);
    JitterWrittenOut(ws[n].rows[ws[n].wire[j].row].id.value, interval);
  }

  /** The ready rows in [k, j) whose attempts went through. */
  function Taken(rows: seq<Row>, k: nat, j: nat, s: Sweep): nat
    requires k <= j <= |rows|
    decreases j - k
  {
    if k == j then 0
    else (if Ready(rows[k], s) && s.reply(k).clean && s.reply(k).reply != NoInfo then 1 else 0) + Taken(rows, k + 1, j, s)
  }

  lemma {:induction false} TakenAfter(rows: seq<Row>, next: seq<Row>, k: nat, j: nat, s: Sweep)
    requires k <= j <= |rows| == |next| && forall i :: k <= i < j ==> next[i] == rows[i]
    ensures Taken(next, k, j, s) == Taken(rows, k, j, s)
    decreases j - k
  {
    if k < j { TakenAfter(rows, next, k + 1, j, s); }
  }

  /** Contacts go down the table, each row at most once. */
  lemma {:induction false} ContactsGoDown(rows: seq<Row>, k: nat, n: nat, s: Sweep)
    requires k <= |rows|
    ensures var cs := SweepFrom(rows, k, n, s).1;
      && (forall c :: c in cs ==> k <= c.row)
      && (forall a, b :: 0 <= a < b < |cs| ==> cs[a].row < cs[b].row)
    decreases |rows| - k
  {
    hide Due, Attempt, Counts;
    if k < |rows| && n < MAX_ANSWER_DELIVERIES_PER_TICK {
      if Due(rows[k], s.now, s.interval) {
        ContactsGoDown(rows[k := Attempt(rows[k], s.reply(k), s.stamp(k))], k + 1, if Counts(s.reply(k)) then n + 1 else n, s);
      } else {
        ContactsGoDown(rows, k + 1, n, s);
      }
    }
  }

  predicate Reached(cs: seq<Contact>, j: nat) {
    exists c :: c in cs && c.row == j
  }

  /** A sweep gets through to the wire for exactly the ready rows before which fewer than two attempts of
      the same sweep went through. */
  lemma {:induction false} SweepReachesExactly(rows: seq<Row>, k: nat, n: nat, s: Sweep, j: nat)
    requires k <= j < |rows| && n <= 2 && IsI64(s.interval)
    ensures Reached(SweepFrom(rows, k, n, s).1, j)
      <==> Ready(rows[j], s) && s.reply(j).reply in {Refuses, Reply.Answers} && n + Taken(rows, k, j, s) < 2
    decreases |rows| - k
  {
    hide Ready, Due, Attempt;
    if n < 2 {
      ReadyIsDue(rows[k], s);
      if Due(rows[k], s.now, s.interval) {
        var m := if Counts(s.reply(k)) then n + 1 else n;
        var next := rows[k := Attempt(rows[k], s.reply(k), s.stamp(k))];
        ReachedHereOrLater(rows[k], k, SweepFrom(next, k + 1, m, s).1, s, j);
        if k < j {
          SweepReachesExactly(next, k + 1, m, s, j);
          TakenAfter(rows, next, k + 1, j, s);
        } else {
          ContactsGoDown(next, k + 1, m, s);
        }
      } else if k < j {
        SweepReachesExactly(rows, k + 1, n, s, j);
      } else {
        ContactsGoDown(rows, k + 1, n, s);
      }
    }
  }

  lemma ReachedHereOrLater(r: Row, k: nat, cs: seq<Contact>, s: Sweep, j: nat)
    ensures Reached(ContactOf(r, k, s) + cs, j) <==> (k == j && s.reply(k).reply in {Refuses, Reply.Answers}) || Reached(cs, j)
  {
    var here := ContactOf(r, k, s);
    assert forall c :: c in cs ==> c in here + cs;
    if here != [] { assert here[0] in here + cs && here[0].row == k; }
  }

  /** And a contact says what was done: when, whether as a retry, and whether the peer took the answer. */
  lemma {:induction false} ContactsAreTrue(rows: seq<Row>, k: nat, n: nat, s: Sweep, c: Contact)
    requires k <= |rows| && c in SweepFrom(rows, k, n, s).1
    ensures k <= c.row < |rows| && c.at == s.now && c.stamp == s.stamp(c.row)
    ensures c.degraded <==> rows[c.row].column == Token(AnswerUnreachable)
    ensures c.answered <==> s.reply(c.row).reply == Reply.Answers
    decreases |rows| - k
  {
    hide Due, Attempt, Counts;
    if Due(rows[k], s.now, s.interval) {
      var next := rows[k := Attempt(rows[k], s.reply(k), s.stamp(k))];
      var m := if Counts(s.reply(k)) then n + 1 else n;
      if c !in ContactOf(rows[k], k, s) { ContactsAreTrue(next, k + 1, m, s, c); }
    } else {
      ContactsAreTrue(rows, k + 1, n, s, c);
    }
  }

  /** What one attempt makes of a row: sent; retired; one more failure; or nothing, when the issue could
      not even be read. */
  predicate Leaves(r: Row, reply: Reply, stamp: int, q: Row) {
    && q.id == r.id && q.inbound == r.inbound && q.phase == r.phase
    && (reply.Answers? <==> q.column == Token(AnswerSent))
    && (reply.NoInfo? ==> q == r)
    && (!reply.NoInfo? ==> q.updated == stamp)
    && (reply in {Refuses, NoRoute, BadSlug} ==> q.column == Token(AnswerUnreachable))
    && (reply.Answers? ==> q.attempts == r.attempts)
    && (reply in {Refuses, NoRoute} ==> q.attempts == r.attempts + 1)
    && (reply.BadSlug? ==> q.attempts == if r.attempts > 12 then r.attempts else 12)
  }

  /** A sweep attempts exactly the ready rows before which fewer than two attempts went through, and writes
      no other row. */
  lemma {:induction false} SweepLeavesExactly(rows: seq<Row>, k: nat, n: nat, s: Sweep, j: nat)
    requires k <= j < |rows| && n <= 2 && IsI64(s.interval)
    ensures var q := SweepFrom(rows, k, n, s).0[j];
      if Ready(rows[j], s) && n + Taken(rows, k, j, s) < 2 then Leaves(rows[j], s.reply(j).reply, s.stamp(j), q)
      else q == rows[j]
    decreases |rows| - k
  {
    ReadyIsDue(rows[k], s);
    if Ready(rows[k], s) { AttemptLeaves(rows[k], s.reply(k), s.stamp(k)); }
    hide Ready, Due, Attempt, Leaves;
    if n < 2 {
      if Due(rows[k], s.now, s.interval) {
        var m := if Counts(s.reply(k)) then n + 1 else n;
        var next := rows[k := Attempt(rows[k], s.reply(k), s.stamp(k))];
        if k < j {
          SweepLeavesExactly(next, k + 1, m, s, j);
          TakenAfter(rows, next, k + 1, j, s);
        } else {
          SweepIsPointwise(next, k + 1, m, s, j);
        }
      } else if k < j {
        SweepLeavesExactly(rows, k + 1, n, s, j);
      } else {
        SweepIsPointwise(rows, k + 1, n, s, j);
      }
    }
  }

  lemma AttemptLeaves(r: Row, t: Try, stamp: int)
    requires r.column == Token(AnswerPending) || r.column == Token(AnswerUnreachable)
    ensures Leaves(r, t.reply, stamp, Attempt(r, t, stamp))
  {
  }
}
