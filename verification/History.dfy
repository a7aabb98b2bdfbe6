/** What the pump did, in order: the workers it spawned, the answers it got, and the changes it handed
    to landing. A crash cuts a history short; the next process starts a new one after it. */
module History {
  import opened Artifacts

  datatype Role = Implementer | Adversary | Merger

  // What can come back from outside.
  datatype Work = WorkStalls | WorkNoDone | WorkEmpty | WorkCommits(change: nat)
  datatype Qa = QaPass | QaFail | QaBroken
  datatype Attack = AttackStalls | AttackNoDone | AttackDone(done: Done)
  datatype Landed = LandMerged | LandParked | LandPrOpen | LandConflict | LandNoToken
  datatype Resolution = MergerStalls | MergerNoDone | MergerUnresolved | MergerResolves(commit: nat)

  /** `Looked` is a reading of the issue's labels for the approval; `Charged` is the durable bump of the
      Merger budget; `reviewed` tells a change handed over straight from review from one resumed
      after a human's approval. */
  datatype Event =
    | Spawned(issue: nat, role: Role)
    | Worked(issue: nat, work: Work)
    | Checked(issue: nat, change: nat, qa: Qa)
    | Judged(issue: nat, change: nat, attack: Attack)
    | Handed(issue: nat, change: nat, reviewed: bool)
    | Looked(issue: nat, approved: bool)
    | Tried(issue: nat, change: nat, landed: Landed)
    | Charged(issue: nat)
    | Resolved(issue: nat, resolution: Resolution)
    | Retried(issue: nat, commit: nat, moved: bool)

  datatype RoundVerdict = RoundPoisoned | RoundFindings | RoundClean

  /** An adversary that stalls, leaves no verified sentinel or declares no `findings.jsonl` has not
      reviewed anything. */
  function VerdictOf(reader: Reader, attack: Attack): RoundVerdict {
    if !attack.AttackDone? || !FromDone(reader, attack.done).Reviewed? then RoundPoisoned
    else if FromDone(reader, attack.done).findings == [] then RoundClean
    else RoundFindings
  }

  /** From `from` on, `n` adversaries one after the other each found nothing wrong with `change`, each
      with a verified sentinel that declares an empty `findings.jsonl`. */
  predicate CleanRounds(h: seq<Event>, from: nat, n: nat, reader: Reader, issue: nat, change: nat) {
    from + 2 * n <= |h| && (n > 0 ==>
      && CleanRounds(h, from, n - 1, reader, issue, change)
      && h[from + 2 * n - 2] == Spawned(issue, Adversary)
      && h[from + 2 * n - 1].Judged? && h[from + 2 * n - 1].issue == issue && h[from + 2 * n - 1].change == change
      && h[from + 2 * n - 1].attack.AttackDone? && FromDone(reader, h[from + 2 * n - 1].attack.done) == Reviewed([]))
  }

  lemma {:induction false} CleanRoundsWithin(a: seq<Event>, b: seq<Event>, from: nat, n: nat, reader: Reader, issue: nat, change: nat)
    ensures CleanRounds(b, from, n, reader, issue, change) ==> CleanRounds(a + b, |a| + from, n, reader, issue, change)
    ensures from + 2 * n <= |a| ==> (CleanRounds(a, from, n, reader, issue, change) <==> CleanRounds(a + b, from, n, reader, issue, change))
    decreases n
  {
    if n > 0 { CleanRoundsWithin(a, b, from, n - 1, reader, issue, change); }
  }

  lemma CleanRoundsGrow(h: seq<Event>, from: nat, n: nat, reader: Reader, issue: nat, change: nat, attack: Attack)
    requires from + 2 * n == |h| && CleanRounds(h, from, n, reader, issue, change) && VerdictOf(reader, attack).RoundClean?
    ensures CleanRounds(h + [Spawned(issue, Adversary), Judged(issue, change, attack)], from, n + 1, reader, issue, change)
  {
    CleanRoundsWithin(h, [Spawned(issue, Adversary), Judged(issue, change, attack)], from, n, reader, issue, change);
  }

  /** The landing at `t` comes right after a QA pass and `n` clean rounds, all on the same change. */
  predicate Earned(h: seq<Event>, t: nat, n: nat, reader: Reader)
    requires t < |h| && h[t].Handed?
  {
    && 2 * n < t
    && h[t - 2 * n - 1] == Checked(h[t].issue, h[t].change, QaPass)
    && CleanRounds(h, t - 2 * n, n, reader, h[t].issue, h[t].change)
  }

  /** What must have come just before each event that matters: a change is handed to landing because it
      was reviewed or because a human approved it; landing is tried only after the labels were read;
      a Merger is charged for before it is spawned; its commit lands only after QA passed on it. */
  predicate Justified(h: seq<Event>, t: nat, n: nat, reader: Reader)
    requires t < |h|
  {
    match h[t]
    case Handed(k, change, reviewed) => if reviewed then Earned(h, t, n, reader) else t > 0 && h[t - 1] == Looked(k, true)
    case Tried(k, change, _) =>
      t > 1 && h[t - 1].Looked? && h[t - 1].issue == k && h[t - 2].Handed? && h[t - 2].issue == k && h[t - 2].change == change
    case Spawned(k, role) => role.Merger? ==> t > 0 && h[t - 1] == Charged(k)
    case Retried(k, commit, _) => t > 0 && h[t - 1] == Checked(k, commit, QaPass)
    case _ => true
  }

  predicate Proper(h: seq<Event>, n: nat, reader: Reader) {
    forall t :: 0 <= t < |h| ==> Justified(h, t, n, reader)
  }

  lemma JustifiedAfter(a: seq<Event>, b: seq<Event>, t: nat, n: nat, reader: Reader)
    requires t < |b| && Justified(b, t, n, reader)
    ensures Justified(a + b, |a| + t, n, reader)
  {
    var h := a + b;
    assert h[|a| + t] == b[t];
    if b[t].Handed? && b[t].reviewed {
      CleanRoundsWithin(a, b, t - 2 * n, n, reader, b[t].issue, b[t].change);
    }
    hide CleanRounds;
  }

  lemma JustifiedInPrefix(a: seq<Event>, b: seq<Event>, t: nat, n: nat, reader: Reader)
    requires t < |a|
    ensures Justified(a, t, n, reader) <==> Justified(a + b, t, n, reader)
  {
    if a[t].Handed? && 2 * n < t { CleanRoundsWithin(a, b, t - 2 * n, n, reader, a[t].issue, a[t].change); }
    hide CleanRounds;
  }

  /** Histories that are each proper are proper together. */
  lemma ConcatKeepsProper(a: seq<Event>, b: seq<Event>, n: nat, reader: Reader)
    requires Proper(a, n, reader) && Proper(b, n, reader)
    ensures Proper(a + b, n, reader)
  {
    hide Justified;
    forall t | 0 <= t < |a + b| ensures Justified(a + b, t, n, reader) {
      if t < |a| { JustifiedInPrefix(a, b, t, n, reader); } else { JustifiedAfter(a, b, t - |a|, n, reader); }
    }
  }

  lemma PrefixKeepsProper(h: seq<Event>, cut: nat, n: nat, reader: Reader)
    requires cut <= |h| && Proper(h, n, reader)
    ensures Proper(h[..cut], n, reader)
  {
    hide Justified;
    assert h[..cut] + h[cut..] == h;
    forall t | 0 <= t < cut ensures Justified(h[..cut], t, n, reader) {
      JustifiedInPrefix(h[..cut], h[cut..], t, n, reader);
    }
  }

  // --- counting -------------------------------------------------------------

  function Spawns(h: seq<Event>, issue: nat, role: Role): nat {
    if h == [] then 0 else Spawns(h[..|h| - 1], issue, role) + if h[|h| - 1] == Spawned(issue, role) then 1 else 0
  }

  function Charges(h: seq<Event>, issue: nat): nat {
    if h == [] then 0 else Charges(h[..|h| - 1], issue) + if h[|h| - 1] == Charged(issue) then 1 else 0
  }

  /** At every point of every history, an issue has had no more Mergers than charges. */
  lemma {:induction false} MergersWithinCharges(h: seq<Event>, issue: nat, n: nat, reader: Reader)
    requires Proper(h, n, reader)
    ensures Spawns(h, issue, Merger) <= Charges(h, issue)
    ensures h != [] && h[|h| - 1] == Charged(issue) ==> Spawns(h, issue, Merger) < Charges(h, issue)
    decreases |h|
  {
    if h != [] {
      var front := h[..|h| - 1];
      PrefixKeepsProper(h, |h| - 1, n, reader);
      hide Proper;
      MergersWithinCharges(front, issue, n, reader);
      if h[|h| - 1] == Spawned(issue, Merger) {
        assert Justified(h, |h| - 1, n, reader) by { LastIsJustified(h, n, reader); }
        assert front[|front| - 1] == h[|h| - 2];
      }
    }
  }

  lemma LastIsJustified(h: seq<Event>, n: nat, reader: Reader)
    requires Proper(h, n, reader) && h != []
    ensures Justified(h, |h| - 1, n, reader)
  {
  }

  lemma {:induction false} CountsOfConcat(a: seq<Event>, b: seq<Event>, issue: nat)
    ensures Charges(a + b, issue) == Charges(a, issue) + Charges(b, issue)
    ensures forall role :: Spawns(a + b, issue, role) == Spawns(a, issue, role) + Spawns(b, issue, role)
    decreases |b|
  {
    if b == [] {
      assert a + b == a;
    } else {
      assert (a + b)[..|a + b| - 1] == a + b[..|b| - 1];
      CountsOfConcat(a, b[..|b| - 1], issue);
    }
  }
}
